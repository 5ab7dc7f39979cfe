/** White space at the ends of a text, as Go's strings.TrimSpace removes it. */
module Spaces {
  import opened Utf8

  /** The length of the white-space character at the front of `t`, or 0 if there is none. */
  function SpaceLength(t: Text): (n: nat)
    ensures n <= |t|
  {
    if t == [] then 0
    else if t[0] == ' ' || Between(t[0], 0x09, 0x0D) then 1
    else if |t| >= 2 && t[0] as int == 0xC2 && (t[1] as int == 0x85 || t[1] as int == 0xA0) then 2
    else if |t| >= 3 && t[0] as int == 0xE1 && t[1] as int == 0x9A && t[2] as int == 0x80 then 3
    else if |t| >= 3 && t[0] as int == 0xE2 && t[1] as int == 0x80
      && (Between(t[2], 0x80, 0x8A) || Between(t[2], 0xA8, 0xA9) || t[2] as int == 0xAF) then 3
    else if |t| >= 3 && t[0] as int == 0xE2 && t[1] as int == 0x81 && t[2] as int == 0x9F then 3
    else if |t| >= 3 && t[0] as int == 0xE3 && t[1] as int == 0x80 && t[2] as int == 0x80 then 3
    else 0
  }

  predicate Blank(t: Text)
    decreases |t|
  {
    t == [] || (SpaceLength(t) > 0 && Blank(t[SpaceLength(t)..]))
  }

  function TrimLeft(t: Text): Text
    decreases |t|
  {
    if SpaceLength(t) == 0 then t else TrimLeft(t[SpaceLength(t)..])
  }

  /** The position from which on there is nothing but white space. */
  function TrimEnd(t: Text, from: nat): (k: nat)
    requires from <= |t|
    ensures from <= k <= |t|
    decreases |t| - from
  {
    if Blank(t[from..]) then from else TrimEnd(t, from + 1)
  }

  function Trim(t: Text): Text {
    TrimLeft(t)[..TrimEnd(TrimLeft(t), 0)]
  }

  /** Trimming leaves nothing exactly of blank texts. */
  lemma {:induction false} TrimEmpties(t: Text)
    ensures Trim(t) == "" <==> Blank(t)
    decreases |t|
  {
    if SpaceLength(t) > 0 {
      TrimEmpties(t[SpaceLength(t)..]);
    }
  }

  // ---------------------------------------------------------------------
  // Trimming twice is trimming once
  // ---------------------------------------------------------------------

  /** What starts with a white-space character does so whatever follows. */
  lemma SpacePrefix(a: Text, b: Text)
    requires SpaceLength(a) > 0
    ensures SpaceLength(a + b) == SpaceLength(a)
  {
    assert forall i :: 0 <= i < |a| ==> (a + b)[i] == a[i];
  }

  lemma {:induction false} BlankConcat(a: Text, b: Text)
    requires Blank(a) && Blank(b)
    ensures Blank(a + b)
    decreases |a|
  {
    hide SpaceLength;
    if a == [] {
      assert a + b == b;
    } else {
      var n := SpaceLength(a);
      SpacePrefix(a, b);
      BlankConcat(a[n..], b);
      assert (a + b)[n..] == a[n..] + b;
    }
  }

  lemma {:induction false} TrimLeftStops(t: Text)
    ensures SpaceLength(TrimLeft(t)) == 0
    decreases |t|
  {
    hide SpaceLength;
    if SpaceLength(t) > 0 {
      TrimLeftStops(t[SpaceLength(t)..]);
    }
  }

  lemma {:induction false} TrimEndFirst(t: Text, from: nat)
    requires from <= |t|
    ensures Blank(t[TrimEnd(t, from)..])
    ensures forall k :: from <= k < TrimEnd(t, from) ==> !Blank(t[k..])
    decreases |t| - from
  {
    hide SpaceLength, Blank;
    if !Blank(t[from..]) {
      EmptyBlank(t);
      TrimEndFirst(t, from + 1);
    }
  }

  lemma EmptyBlank(t: Text)
    ensures Blank(t[|t|..])
  {}

  lemma {:induction false} TrimEndIs(t: Text, from: nat)
    requires from <= |t| && forall k :: from <= k < |t| ==> !Blank(t[k..])
    ensures TrimEnd(t, from) == |t|
    decreases |t| - from
  {
    hide Blank;
    EmptyBlank(t);
    if from < |t| {
      TrimEndIs(t, from + 1);
    }
  }

  lemma TrimTwice(t: Text)
    ensures Trim(Trim(t)) == Trim(t)
  {
    hide SpaceLength, Blank, TrimEnd, TrimLeft;
    var u := TrimLeft(t);
    var k := TrimEnd(u, 0);
    var v := u[..k];
    TrimLeftStops(t);
    TrimEndFirst(u, 0);
    assert v + u[k..] == u;
    if SpaceLength(v) > 0 {
      SpacePrefix(v, u[k..]);
    }
    assert TrimLeft(v) == v by { TrimLeftNothing(v); }
    forall j | 0 <= j < k ensures !Blank(v[j..]) {
      assert u[j..] == v[j..] + u[k..];
      if Blank(v[j..]) {
        BlankConcat(v[j..], u[k..]);
      }
    }
    TrimEndIs(v, 0);
  }

  lemma TrimLeftNothing(t: Text)
    requires SpaceLength(t) == 0
    ensures TrimLeft(t) == t
  {}
}
