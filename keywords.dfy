/** An ordered keyword table: the first rule one of whose keywords occurs in
    the (lower-cased) model name decides the result. Both adapters pick model
    ids with if/elif chains of substring tests; the tables in PiMonoConfig and
    DroidConfig restate those chains as data, and lemmas there prove that each
    chain and its table agree. */
module Keywords {
  import opened Text

  datatype Rule<T> = Rule(keywords: seq<string>, id: T)

  predicate Fires<T>(rule: Rule<T>, s: string)
  {
    exists i :: 0 <= i < |rule.keywords| && Contains(s, rule.keywords[i])
  }

  /** The id of the first rule that fires on `s`, or `default` when none does. */
  function FirstMatch<T>(rules: seq<Rule<T>>, s: string, default: T): (r: T)
    ensures (forall i :: 0 <= i < |rules| ==> !Fires(rules[i], s)) ==> r == default
    ensures forall i :: 0 <= i < |rules| && Fires(rules[i], s)
                        && (forall j :: 0 <= j < i ==> !Fires(rules[j], s))
                        ==> r == rules[i].id
  {
    if rules == [] then default
    else if Fires(rules[0], s) then rules[0].id
    else
      assert forall i :: 1 <= i < |rules| ==> rules[i] == rules[1..][i - 1];
      FirstMatch(rules[1..], s, default)
  }

  /** An earlier rule shadows a later one: when rule `i` fires, no later
      rule's id is chosen unless it equals an earlier one's. */
  lemma FirstMatchShadows<T>(rules: seq<Rule<T>>, s: string, default: T, i: nat)
    requires i < |rules| && Fires(rules[i], s)
    ensures exists j :: 0 <= j <= i && FirstMatch(rules, s, default) == rules[j].id
  {
    var j := 0;
    while j < i && !Fires(rules[j], s)
      invariant 0 <= j <= i
      invariant forall k :: 0 <= k < j ==> !Fires(rules[k], s)
    {
      j := j + 1;
    }
    assert FirstMatch(rules, s, default) == rules[j].id;
  }

  /** A one-keyword rule fires when its keyword occurs. */
  lemma FiresSingle<T>(r: Rule<T>, s: string)
    requires |r.keywords| == 1
    ensures Fires(r, s) <==> Contains(s, r.keywords[0])
  {
  }

  /** A two-keyword rule fires when either keyword occurs. */
  lemma FiresPair<T>(r: Rule<T>, s: string)
    requires |r.keywords| == 2
    ensures Fires(r, s) <==> Contains(s, r.keywords[0]) || Contains(s, r.keywords[1])
  {
  }
}
