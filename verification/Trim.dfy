/** Taking characters off both ends of a text of octets, as `trim_matches` does: `width` is the number of
    octets of the character to take off, 0 if there is none to take off. */
module Trim {
  import opened Bytes

  type Width = seq<byte> -> nat
  type Octets = seq<byte> -> bool

  function Start(s: seq<byte>, width: Width): seq<byte> {
    if 0 < width(s) <= |s| then Start(s[width(s)..], width) else s
  }

  function End(s: seq<byte>, width: Width): seq<byte> {
    if 0 < width(s) <= |s| then End(s[..|s| - width(s)], width) else s
  }

  function Both(s: seq<byte>, first: Width, last: Width): seq<byte> { End(Start(s, first), last) }

  function Concat(ps: seq<seq<byte>>): seq<byte> {
    if ps == [] then [] else ps[0] + Concat(ps[1..])
  }

  ghost predicate All(ps: seq<seq<byte>>, ok: Octets) { forall i :: 0 <= i < |ps| ==> ok(ps[i]) }

  lemma {:induction false} ConcatSnoc(ps: seq<seq<byte>>, p: seq<byte>)
    ensures Concat(ps + [p]) == Concat(ps) + p
  {
    if ps == [] {
      assert ps + [p] == [p] && [p][1..] == [];
    } else {
      assert (ps + [p])[1..] == ps[1..] + [p];
      ConcatSnoc(ps[1..], p);
    }
  }

  /** What is taken off at the start, or at the end, is a character of the kind `ok` ... */
  ghost predicate TakesFirst(width: Width, ok: Octets) { forall s :: 0 < width(s) <= |s| ==> ok(s[..width(s)]) }
  ghost predicate TakesLast(width: Width, ok: Octets) { forall s :: 0 < width(s) <= |s| ==> ok(s[|s| - width(s)..]) }

  /** ... and every such character there is taken off. */
  ghost predicate TakesAllFirst(width: Width, ok: Octets) { forall p, rest :: ok(p) ==> 0 < width(p + rest) == |p| }
  ghost predicate TakesAllLast(width: Width, ok: Octets) { forall p, before :: ok(p) ==> 0 < width(before + p) == |p| }

  lemma {:induction false} StartSplits(s: seq<byte>, width: Width, ok: Octets) returns (ps: seq<seq<byte>>)
    requires TakesFirst(width, ok)
    ensures s == Concat(ps) + Start(s, width) && All(ps, ok)
  {
    ps := [];
    var n := width(s);
    if 0 < n <= |s| {
      var rest := StartSplits(s[n..], width, ok);
      ps := [s[..n]] + rest;
      assert ps[1..] == rest;
    }
  }

  lemma {:induction false} EndSplits(s: seq<byte>, width: Width, ok: Octets) returns (ps: seq<seq<byte>>)
    requires TakesLast(width, ok)
    ensures s == End(s, width) + Concat(ps) && All(ps, ok)
  {
    ps := [];
    var n := width(s);
    if 0 < n <= |s| {
      var front := EndSplits(s[..|s| - n], width, ok);
      ps := front + [s[|s| - n..]];
      ConcatSnoc(front, s[|s| - n..]);
    }
  }

  lemma {:induction false} StartDrops(ps: seq<seq<byte>>, rest: seq<byte>, width: Width, ok: Octets)
    requires TakesAllFirst(width, ok) && All(ps, ok) && width(rest) == 0
    ensures Start(Concat(ps) + rest, width) == rest
  {
    if ps == [] {
      assert Concat(ps) + rest == rest;
    } else {
      var more := Concat(ps[1..]) + rest;
      assert Concat(ps) + rest == ps[0] + more;
      assert ok(ps[0]) && (ps[0] + more)[|ps[0]|..] == more;
      StartDrops(ps[1..], rest, width, ok);
    }
  }

  lemma {:induction false} EndDrops(core: seq<byte>, ps: seq<seq<byte>>, width: Width, ok: Octets)
    requires TakesAllLast(width, ok) && All(ps, ok) && width(core) == 0
    ensures End(core + Concat(ps), width) == core
  {
    if ps == [] {
      assert core + Concat(ps) == core;
    } else {
      var front, last := ps[..|ps| - 1], ps[|ps| - 1];
      var before := core + Concat(front);
      ConcatSnoc(front, last);
      assert ps == front + [last] && ok(last);
      assert core + Concat(ps) == before + last && (before + last)[..|before|] == before;
      EndDrops(core, front, width, ok);
    }
  }

  /** Taking off both ends leaves a core between characters of the kind ... */
  lemma BothSplits(s: seq<byte>, first: Width, last: Width, ok: Octets) returns (pre: seq<seq<byte>>, post: seq<seq<byte>>)
    requires TakesFirst(first, ok) && TakesLast(last, ok)
    ensures s == Concat(pre) + Both(s, first, last) + Concat(post) && All(pre, ok) && All(post, ok)
  {
    pre := StartSplits(s, first, ok);
    post := EndSplits(Start(s, first), last, ok);
  }

  /** ... and finds any core that does not itself start or end with one. */
  lemma BothDrops(pre: seq<seq<byte>>, core: seq<byte>, post: seq<seq<byte>>, first: Width, last: Width, ok: Octets)
    requires TakesAllFirst(first, ok) && TakesAllLast(last, ok) && All(pre, ok) && All(post, ok)
    requires first(core + Concat(post)) == 0 && last(core) == 0
    ensures Both(Concat(pre) + core + Concat(post), first, last) == core
  {
    assert Concat(pre) + core + Concat(post) == Concat(pre) + (core + Concat(post));
    StartDrops(pre, core + Concat(post), first, ok);
    EndDrops(core, post, last, ok);
  }
}
