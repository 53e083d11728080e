/** The investigation chat's offline bot: the user's message, lowered, is
    tested against six keyword lists in a fixed order and the first list
    with a keyword occurring anywhere in it picks the reply. The replies
    themselves are canned texts; the model returns which one. */
module BotResponses {
  import opened Text

  /** The keys of the canned replies. */
  datatype Category = Greeting | TxReply | FraudReply | MerchantReply | UserReply | RiskReply | DefaultReply

  /** A keyword list and the reply it selects. */
  datatype Rule = Rule(reply: Category, keywords: seq<string>)

  /** The lists in the order they are tried. */
  const RULES: seq<Rule> := [
    Rule(Greeting, ["hello", "hi", "halo", "hey"]),
    Rule(TxReply, ["tx-", "transaction"]),
    Rule(FraudReply, ["fraud", "pattern", "suspicious"]),
    Rule(MerchantReply, ["merchant", "toko"]),
    Rule(UserReply, ["user", "pengguna", "behavior"]),
    Rule(RiskReply, ["risk", "score", "model"])
  ]

  /** Some keyword of the list occurs in `s`. */
  predicate AnyIn(s: string, keywords: seq<string>) {
    exists w :: w in keywords && Contains(s, w)
  }

  /** The reply of the first rule with a keyword in `s`, or the default. */
  function FirstMatch(s: string, rules: seq<Rule>): (c: Category)
    requires forall k :: 0 <= k < |rules| ==> rules[k].reply != DefaultReply
    ensures c == DefaultReply <==> forall k :: 0 <= k < |rules| ==> !AnyIn(s, rules[k].keywords)
    ensures c != DefaultReply ==> exists k :: 0 <= k < |rules| && rules[k].reply == c && AnyIn(s, rules[k].keywords)
                                              && forall j :: 0 <= j < k ==> !AnyIn(s, rules[j].keywords)
  {
    if |rules| == 0 then DefaultReply
    else if AnyIn(s, rules[0].keywords) then rules[0].reply
    else
      FirstMatch(s, rules[1..])
  }

  /** `matchResponse`. */
  function MatchResponse(input: string): Category {
    FirstMatch(Lower(input), RULES)
  }

  /** The position of a reply in the order the rules are tried. */
  function RuleIndex(c: Category): nat {
    match c
    case Greeting => 0
    case TxReply => 1
    case FraudReply => 2
    case MerchantReply => 3
    case UserReply => 4
    case RiskReply => 5
    case DefaultReply => 6
  }

  /** Every rule sits at its reply's position. */
  predicate Indexed(rules: seq<Rule>) {
    forall k :: 0 <= k < |rules| ==> rules[k].reply != DefaultReply && RuleIndex(rules[k].reply) == k
  }

  /** For rules at their replies' positions, the reply's position names the
      rule that fired. */
  lemma FirstMatchIndexed(s: string, rules: seq<Rule>)
    requires Indexed(rules)
    ensures FirstMatch(s, rules) != DefaultReply ==>
              RuleIndex(FirstMatch(s, rules)) < |rules|
              && rules[RuleIndex(FirstMatch(s, rules))].reply == FirstMatch(s, rules)
              && AnyIn(s, rules[RuleIndex(FirstMatch(s, rules))].keywords)
              && forall j :: 0 <= j < RuleIndex(FirstMatch(s, rules)) ==> !AnyIn(s, rules[j].keywords)
  {
    var c := FirstMatch(s, rules);
    if c != DefaultReply {
      var k :| 0 <= k < |rules| && rules[k].reply == c && AnyIn(s, rules[k].keywords)
               && forall j :: 0 <= j < k ==> !AnyIn(s, rules[j].keywords);
      assert RuleIndex(c) == k;
    }
  }

  /** The reply's keywords occur in the lowered input and no earlier rule's
      do; the default is given exactly when no keyword occurs at all. */
  lemma MatchResponseMeaning(input: string)
    ensures MatchResponse(input) == DefaultReply <==> forall k :: 0 <= k < |RULES| ==> !AnyIn(Lower(input), RULES[k].keywords)
    ensures MatchResponse(input) != DefaultReply ==>
              RuleIndex(MatchResponse(input)) < |RULES|
              && RULES[RuleIndex(MatchResponse(input))].reply == MatchResponse(input)
              && AnyIn(Lower(input), RULES[RuleIndex(MatchResponse(input))].keywords)
              && forall j :: 0 <= j < RuleIndex(MatchResponse(input)) ==> !AnyIn(Lower(input), RULES[j].keywords)
  {
    assert Indexed(RULES);
    FirstMatchIndexed(Lower(input), RULES);
  }

  /** The first rule wins: a keyword of rule `k` in the input means the
      reply comes from rule `k` or an earlier one. */
  lemma FirstRuleWins(input: string, k: nat)
    requires k < |RULES| && AnyIn(Lower(input), RULES[k].keywords)
    ensures RuleIndex(MatchResponse(input)) <= k
  {
    MatchResponseMeaning(input);
  }

  /** Letter case never changes the reply. */
  lemma CaseInsensitive(input: string)
    ensures MatchResponse(Upper(input)) == MatchResponse(Lower(input)) == MatchResponse(input)
  {
    LowerIdempotent(input);
    var u := Lower(Upper(input));
    forall i | 0 <= i < |input| ensures u[i] == Lower(input)[i] {
      var c := input[i];
      if IsLowerAscii(c) {
        assert UpperChar(c) as int == c as int - 32;
      }
    }
    assert u == Lower(input);
  }

  /** The test is a substring test, not a word test: anything containing
      "hi" gets the greeting, whatever else it mentions. */
  lemma HiGreets(input: string)
    requires Contains(Lower(input), "hi")
    ensures MatchResponse(input) == Greeting
  {
    assert "hi" in RULES[0].keywords;
    assert AnyIn(Lower(input), RULES[0].keywords);
  }

  /** So a question about "this transaction" is answered with the greeting
      rather than the transaction analysis. */
  lemma ThisTransactionGreets()
    ensures MatchResponse("this transaction") == Greeting
  {
    var s := "this transaction";
    var l := Lower(s);
    assert l[1] == LowerChar(s[1]) == 'h';
    assert l[2] == LowerChar(s[2]) == 'i';
    assert l[1..3] == "hi";
    assert OccursAt(l, "hi", 1);
    HiGreets("this transaction");
  }

  /** Only the empty keyword occurs in the empty string. */
  lemma NothingInEmpty(keywords: seq<string>)
    requires forall w :: w in keywords ==> w != ""
    ensures !AnyIn("", keywords)
  {
  }

  /** An empty message mentions no keyword and gets the default. */
  lemma EmptyGetsDefault()
    ensures MatchResponse("") == DefaultReply
  {
    assert Lower("") == "";
    forall k | 0 <= k < |RULES| ensures !AnyIn("", RULES[k].keywords) {
      NothingInEmpty(RULES[k].keywords);
    }
  }
}
