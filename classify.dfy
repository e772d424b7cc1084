/** Rule-based bill type classification (classify_bill_type): the merchant
    label is lower-cased and tested against eight keyword lists in a fixed
    priority order; the first list with a keyword occurring in the label
    decides the type, and a label matching none is "Other". */
module BillClassifier {
  import opened Wrappers

  datatype BillType =
    | RentMortgage | Utilities | InternetCable | PhoneMobile | Insurance
    | Subscription | CreditCard | LoanPayment | Other
  {
    /** The label the source stores in a bill's `type` field. */
    function Label(): string
    {
      match this
      case RentMortgage => "Rent/Mortgage"
      case Utilities => "Utilities"
      case InternetCable => "Internet/Cable"
      case PhoneMobile => "Phone/Mobile"
      case Insurance => "Insurance"
      case Subscription => "Subscription"
      case CreditCard => "Credit Card"
      case LoanPayment => "Loan Payment"
      case Other => "Other"
    }
  }

  /** The types tested, highest priority first; Other is the fallback. */
  const Priority: seq<BillType> :=
    [RentMortgage, Utilities, InternetCable, PhoneMobile, Insurance, Subscription, CreditCard, LoanPayment]

  /** The keyword list of each tested type. */
  function Keywords(t: BillType): seq<string>
  {
    match t
    case RentMortgage => ["rent", "apartment", "housing"]
    case Utilities => ["electric", "gas", "water", "trash", "disposal", "utility"]
    case InternetCable => ["internet", "cable", "wifi", "ethernet"]
    case PhoneMobile => ["phone", "mobile", "cellular"]
    case Insurance => ["insurance", "auto", "health"]
    case Subscription => ["netflix", "spotify", "subscription", "streaming"]
    case CreditCard => ["credit", "card", "payment"]
    case LoanPayment => ["loan", "mortgage"]
    case Other => []
  }

  function LowerChar(c: char): char
  {
    if 'A' <= c <= 'Z' then (c as int + 32) as char else c
  }

  /** Lower-casing of the letters A to Z; every other character is kept. */
  function ToLower(s: string): string
  {
    if s == [] then [] else [LowerChar(s[0])] + ToLower(s[1..])
  }

  lemma {:induction false} ToLowerIdempotent(s: string)
    ensures ToLower(ToLower(s)) == ToLower(s)
  {
    if s != [] {
      ToLowerIdempotent(s[1..]);
    }
  }

  /** Python's `w in s` on strings: w occurs in s as a contiguous block. */
  predicate Contains(s: string, w: string)
    decreases |s|
  {
    |w| <= |s| && (s[..|w|] == w || Contains(s[1..], w))
  }

  /** w occurs in s starting at offset i. */
  predicate OccursAt(s: string, w: string, i: int)
  {
    0 <= i && i + |w| <= |s| && s[i..i + |w|] == w
  }

  /** Contains is exactly "occurs at some offset". */
  lemma {:induction false} ContainsAt(s: string, w: string)
    ensures Contains(s, w) <==> exists i :: OccursAt(s, w, i)
  {
    if |w| > |s| {
      assert forall i :: !OccursAt(s, w, i);
    } else if s[..|w|] == w {
      assert OccursAt(s, w, 0);
    } else {
      ContainsAt(s[1..], w);
      if Contains(s[1..], w) {
        var i :| OccursAt(s[1..], w, i);
        assert OccursAt(s, w, i + 1);
      }
      if i :| OccursAt(s, w, i) {
        assert i != 0;
        assert OccursAt(s[1..], w, i - 1);
      }
    }
  }

  /** Python's `any(word in text for word in words)`. */
  predicate AnyOccurs(text: string, words: seq<string>)
  {
    words != [] && (Contains(text, words[0]) || AnyOccurs(text, words[1..]))
  }

  /** AnyOccurs holds exactly when one of the words occurs in the text. */
  lemma {:induction false} AnyOccursIff(text: string, words: seq<string>)
    ensures AnyOccurs(text, words) <==> exists w :: w in words && Contains(text, w)
  {
    if words != [] {
      AnyOccursIff(text, words[1..]);
      if w :| w in words && Contains(text, w) {
        if w != words[0] {
          assert w in words[1..];
        }
      }
    }
  }

  /** The keyword lists of the given types, in the same order. */
  function KeywordsOf(types: seq<BillType>): (lists: seq<seq<string>>)
    ensures |lists| == |types|
    ensures forall k :: 0 <= k < |types| ==> lists[k] == Keywords(types[k])
  {
    if types == [] then [] else [Keywords(types[0])] + KeywordsOf(types[1..])
  }

  /** The keyword lists in priority order. */
  const KeywordLists: seq<seq<string>> := KeywordsOf(Priority)

  /** The k-th tested type has a keyword occurring in the (lower-cased)
      text. */
  predicate Matches(text: string, k: nat)
    requires k < |Priority|
  {
    AnyOccurs(text, Keywords(Priority[k]))
  }

  /** The first list at or after `from` with a word occurring in the text,
      if any. */
  function FirstMatch(text: string, lists: seq<seq<string>>, from: nat): (r: Option<nat>)
    requires from <= |lists|
    decreases |lists| - from
    ensures r.Some? ==> from <= r.value < |lists|
  {
    if from == |lists| then None
    else if AnyOccurs(text, lists[from]) then Some(from)
    else FirstMatch(text, lists, from + 1)
  }

  /** FirstMatch finds the first matching list at or after `from`, and
      finds none only when no list there matches. */
  lemma {:induction false} FirstMatchSpec(text: string, lists: seq<seq<string>>, from: nat)
    requires from <= |lists|
    decreases |lists| - from
    ensures FirstMatch(text, lists, from).Some? ==>
      AnyOccurs(text, lists[FirstMatch(text, lists, from).value])
    ensures FirstMatch(text, lists, from).Some? ==>
      forall k :: from <= k < FirstMatch(text, lists, from).value ==> !AnyOccurs(text, lists[k])
    ensures FirstMatch(text, lists, from).None? ==>
      forall k :: from <= k < |lists| ==> !AnyOccurs(text, lists[k])
  {
    if from < |lists| && !AnyOccurs(text, lists[from]) {
      FirstMatchSpec(text, lists, from + 1);
    }
  }

  /** Each tested type is tested once, and Other is not among them. */
  lemma RuleTypesDistinct()
    ensures forall k :: 0 <= k < |Priority| ==> Priority[k] != Other
    ensures forall j, k :: 0 <= j < k < |Priority| ==> Priority[j] != Priority[k]
  {
  }

  /** Different types carry different labels, so a bill's `type` field
      names its type unambiguously. */
  lemma LabelsDistinct(a: BillType, b: BillType)
    ensures a.Label() == b.Label() <==> a == b
  {
    if a != b {
      assert a.Label()[..2] != b.Label()[..2] || |a.Label()| != |b.Label()| || a.Label()[2..] != b.Label()[2..];
    }
  }

  /** The type of a merchant label. The amount takes no part in it. */
  function ClassifyBillType(merchant: string, amount: real): BillType
  {
    match FirstMatch(ToLower(merchant), KeywordLists, 0)
    case Some(k) => Priority[k]
    case None => Other
  }

  /** The tested list that decides a label: the first that matches. */
  lemma ClassifyDecider(merchant: string, amount: real)
    ensures FirstMatch(ToLower(merchant), KeywordLists, 0).Some? ==>
      var m := FirstMatch(ToLower(merchant), KeywordLists, 0).value;
      ClassifyBillType(merchant, amount) == Priority[m] && Matches(ToLower(merchant), m) &&
      forall j :: 0 <= j < m ==> !Matches(ToLower(merchant), j)
    ensures FirstMatch(ToLower(merchant), KeywordLists, 0).None? ==>
      ClassifyBillType(merchant, amount) == Other &&
      forall k :: 0 <= k < |Priority| ==> !Matches(ToLower(merchant), k)
  {
    FirstMatchSpec(ToLower(merchant), KeywordLists, 0);
  }

  /** The classifier returns Other exactly when no keyword list matches the
      lower-cased label. */
  lemma ClassifyOther(merchant: string, amount: real)
    ensures ClassifyBillType(merchant, amount) != Other <==>
      exists k :: 0 <= k < |Priority| && Matches(ToLower(merchant), k)
  {
    ClassifyDecider(merchant, amount);
    RuleTypesDistinct();
    if FirstMatch(ToLower(merchant), KeywordLists, 0).Some? {
      var m := FirstMatch(ToLower(merchant), KeywordLists, 0).value;
      assert 0 <= m < |Priority| && Matches(ToLower(merchant), m);
    }
  }

  /** The classifier returns the type of list k exactly when list k is the
      first that matches the lower-cased label. */
  lemma ClassifyFirstMatch(merchant: string, amount: real, k: nat)
    requires k < |Priority|
    ensures ClassifyBillType(merchant, amount) == Priority[k] <==>
      Matches(ToLower(merchant), k) && forall j :: 0 <= j < k ==> !Matches(ToLower(merchant), j)
  {
    ClassifyDecider(merchant, amount);
    RuleTypesDistinct();
    if FirstMatch(ToLower(merchant), KeywordLists, 0).Some? {
      var m := FirstMatch(ToLower(merchant), KeywordLists, 0).value;
      if k < m {
        assert !Matches(ToLower(merchant), k) && Priority[k] != Priority[m];
      } else if k > m {
        assert Matches(ToLower(merchant), m) && Priority[k] != Priority[m];
      }
    }
  }

  /** Classification ignores letter case and the amount. */
  lemma ClassifyCaseInsensitive(merchant: string, a1: real, a2: real)
    ensures ClassifyBillType(ToLower(merchant), a1) == ClassifyBillType(merchant, a2)
  {
    ToLowerIdempotent(merchant);
  }
}
