/** The dashboard's stat card: its title is drawn on two lines, the first
    word and then the rest, on a background that defaults to the card
    colour. */
module StatCard {
  import opened Base
  import opened Text

  /** `title.split(' ')[0]`: the first line. */
  function Line1(title: string): (l: string)
    ensures StartsWith(title, l) && ' ' !in l
    ensures ' ' in title ==> |l| < |title| && title[|l|] == ' '
    ensures ' ' !in title ==> l == title
  {
    SplitFirst(title, ' ');
    Split(title, ' ')[0]
  }

  /** `title.split(' ').slice(1).join(' ')`: the second line. */
  function Line2(title: string): string {
    Join(Split(title, ' ')[1..], ' ')
  }

  /** The two lines hold the whole title: with a space, the first line, a
      space and the second line give back the title; without one, the second
      line is empty. */
  lemma TitleLines(title: string)
    ensures ' ' in title ==> Line1(title) + " " + Line2(title) == title
    ensures ' ' !in title ==> Line2(title) == ""
  {
    var parts := Split(title, ' ');
    JoinSplit(title, ' ');
    if ' ' in title {
      SplitSeveral(title, ' ');
      assert Join(parts, ' ') == parts[0] + [' '] + Join(parts[1..], ' ');
    } else {
      SplitFirst(title, ' ');
    }
  }

  /** The card's background: `cardBgColor` unless it is absent or empty. */
  function CardBackground(cardBgColor: Option<string>): (bg: string)
    ensures cardBgColor.Some? && cardBgColor.value != "" ==> bg == cardBgColor.value
    ensures cardBgColor.None? || cardBgColor.value == "" ==> bg == "bg-card"
  {
    if cardBgColor.Some? && cardBgColor.value != "" then cardBgColor.value else "bg-card"
  }

  /** The chosen background is always a class the card would itself keep:
      handing it back as `cardBgColor` chooses it again, since neither a
      given class nor the default is empty. */
  lemma CardBackgroundStable(cardBgColor: Option<string>)
    ensures CardBackground(cardBgColor) != ""
    ensures CardBackground(Some(CardBackground(cardBgColor))) == CardBackground(cardBgColor)
  {
  }
}
