/**
 * The parameter scans the three strategies share: walk a custom strategy's
 * params in order, consider those whose key equals a fixed key ignoring case,
 * and skip those whose value does not parse (a caught
 * `NumberFormatException`). Flat and random price keep the FIRST value that
 * parses; retargeting keeps the LAST, because its loop never breaks.
 */
module StrategyParams {
  import opened JavaLang
  import opened Messages

  /** The value a param contributes for `key`: its parsed value when the key
      matches ignoring case and the value parses into [lo, hi]. */
  function Parsed(p: Param, key: string, lo: int, hi: int): (r: Option<int>)
    ensures EqualsIgnoreCase(p.key, key) ==> r == ParseDecimal(p.value, lo, hi)
    ensures !EqualsIgnoreCase(p.key, key) ==> r.None?
  {
    if EqualsIgnoreCase(p.key, key) then ParseDecimal(p.value, lo, hi) else None
  }

  /** `ps[i]` yields `v` and no param before it yields anything. */
  predicate IsFirstMatch(ps: seq<Param>, key: string, lo: int, hi: int, i: int, v: Option<int>) {
    && 0 <= i < |ps|
    && v.Some? && Parsed(ps[i], key, lo, hi) == v
    && forall j :: 0 <= j < i ==> Parsed(ps[j], key, lo, hi).None?
  }

  /** `ps[i]` yields `v` and no param after it yields anything. */
  predicate IsLastMatch(ps: seq<Param>, key: string, lo: int, hi: int, i: int, v: Option<int>) {
    && 0 <= i < |ps|
    && v.Some? && Parsed(ps[i], key, lo, hi) == v
    && forall j :: i < j < |ps| ==> Parsed(ps[j], key, lo, hi).None?
  }

  /** The first param of `ps` that yields a value for `key`, scanning in order. */
  function FirstParsed(ps: seq<Param>, key: string, lo: int, hi: int): (r: Option<int>)
    ensures r.Some? ==> lo <= r.value <= hi
    ensures r.None? <==> forall i :: 0 <= i < |ps| ==> Parsed(ps[i], key, lo, hi).None?
    ensures r.Some? ==> exists i :: IsFirstMatch(ps, key, lo, hi, i, r)
  {
    if |ps| == 0 then None
    else if Parsed(ps[0], key, lo, hi).Some? then
      assert IsFirstMatch(ps, key, lo, hi, 0, Parsed(ps[0], key, lo, hi));
      Parsed(ps[0], key, lo, hi)
    else
      var r := FirstParsed(ps[1..], key, lo, hi);
      assert forall i :: 1 <= i < |ps| ==> ps[i] == ps[1..][i - 1];
      if r.Some? then
        var i :| IsFirstMatch(ps[1..], key, lo, hi, i, r);
        assert IsFirstMatch(ps, key, lo, hi, i + 1, r);
        r
      else
        r
  }

  /** The last param of `ps` that yields a value for `key`: what a scan that
      overwrites its result at every yielding param ends with. */
  function LastParsed(ps: seq<Param>, key: string, lo: int, hi: int): (r: Option<int>)
    ensures r.Some? ==> lo <= r.value <= hi
    ensures r.None? <==> forall i :: 0 <= i < |ps| ==> Parsed(ps[i], key, lo, hi).None?
    ensures r.Some? ==> exists i :: IsLastMatch(ps, key, lo, hi, i, r)
  {
    if |ps| == 0 then None
    else
      var last := |ps| - 1;
      if Parsed(ps[last], key, lo, hi).Some? then
        assert IsLastMatch(ps, key, lo, hi, last, Parsed(ps[last], key, lo, hi));
        Parsed(ps[last], key, lo, hi)
      else
        var init := ps[..last];
        var r := LastParsed(init, key, lo, hi);
        assert forall i :: 0 <= i < |init| ==> init[i] == ps[i];
        if r.Some? then
          var i :| IsLastMatch(init, key, lo, hi, i, r);
          assert IsLastMatch(ps, key, lo, hi, i, r);
          r
        else
          r
  }

  /** The first match is determined by its position: the value at the first
      index that yields one. */
  lemma FirstParsedAt(ps: seq<Param>, key: string, lo: int, hi: int, i: int)
    requires 0 <= i < |ps| && Parsed(ps[i], key, lo, hi).Some?
    requires forall j :: 0 <= j < i ==> Parsed(ps[j], key, lo, hi).None?
    ensures FirstParsed(ps, key, lo, hi) == Parsed(ps[i], key, lo, hi)
  {
    var r := FirstParsed(ps, key, lo, hi);
    var k :| IsFirstMatch(ps, key, lo, hi, k, r);
    assert k == i;
  }

  /** A param that yields nothing (another key, or a value that does not
      parse) can be inserted anywhere without changing the first match. */
  lemma {:induction false} FirstParsedSkips(ps: seq<Param>, k: int, p: Param, key: string, lo: int, hi: int)
    requires 0 <= k <= |ps| && Parsed(p, key, lo, hi).None?
    ensures FirstParsed(ps[..k] + [p] + ps[k..], key, lo, hi) == FirstParsed(ps, key, lo, hi)
  {
    var qs := ps[..k] + [p] + ps[k..];
    if k == 0 {
      assert qs == [p] + ps;
      FirstParsedSkipsHead(ps, p, key, lo, hi);
    } else {
      InsertAfterHead(ps, k, p);
      FirstParsedSkips(ps[1..], k - 1, p, key, lo, hi);
      FirstParsedSameHead(ps, qs, key, lo, hi);
    }
  }

  /** Inserting behind the head keeps the head and inserts into the tail. */
  lemma InsertAfterHead(ps: seq<Param>, k: int, p: Param)
    requires 0 < k <= |ps|
    ensures var qs := ps[..k] + [p] + ps[k..];
            qs[0] == ps[0] && qs[1..] == ps[1..][..k - 1] + [p] + ps[1..][k - 1..]
  {
  }

  /** A leading param that yields nothing does not change the first match. */
  lemma FirstParsedSkipsHead(ps: seq<Param>, p: Param, key: string, lo: int, hi: int)
    requires Parsed(p, key, lo, hi).None?
    ensures FirstParsed([p] + ps, key, lo, hi) == FirstParsed(ps, key, lo, hi)
  {
    assert ([p] + ps)[1..] == ps;
  }

  /** Two lists with the same head and the same first match in their tails
      have the same first match. */
  lemma FirstParsedSameHead(ps: seq<Param>, qs: seq<Param>, key: string, lo: int, hi: int)
    requires |ps| > 0 && |qs| > 0 && ps[0] == qs[0]
    requires FirstParsed(ps[1..], key, lo, hi) == FirstParsed(qs[1..], key, lo, hi)
    ensures FirstParsed(ps, key, lo, hi) == FirstParsed(qs, key, lo, hi)
  {
  }

  /** An unparseable value appended after a parsed one does not clear it. */
  lemma LastParsedKeepsEarlier(ps: seq<Param>, p: Param, key: string, lo: int, hi: int)
    requires Parsed(p, key, lo, hi).None?
    ensures LastParsed(ps + [p], key, lo, hi) == LastParsed(ps, key, lo, hi)
  {
    assert (ps + [p])[..|ps|] == ps;
  }
}
