/** UTF-8 well-formedness as Go's unicode/utf8 decides it (section 4 of RFC 3629).

    Text is a sequence of bytes, written here as characters. */
module Utf8 {
  type Text = string

  const REPLACEMENT: Text := [0xEF as char, 0xBF as char, 0xBD as char]

  predicate Between(b: char, low: int, high: int) {
    low <= b as int <= high
  }

  /** A byte that continues a character; every other byte can start one. */
  predicate IsContinuation(b: char) {
    Between(b, 0x80, 0xBF)
  }

  predicate RuneStart(b: char) {
    !IsContinuation(b)
  }

  /** The length of the character encoded at the front of `t`, or 0 if there is none. */
  function RuneLength(t: Text): nat {
    if t == [] then 0
    else if Between(t[0], 0, 0x7F) then 1
    else if Between(t[0], 0xC2, 0xDF) then
      if |t| >= 2 && IsContinuation(t[1]) then 2 else 0
    else if Between(t[0], 0xE0, 0xEF) then
      if |t| >= 3 && Between(t[1], if t[0] as int == 0xE0 then 0xA0 else 0x80, if t[0] as int == 0xED then 0x9F else 0xBF)
         && IsContinuation(t[2]) then 3 else 0
    else if Between(t[0], 0xF0, 0xF4) then
      if |t| >= 4 && Between(t[1], if t[0] as int == 0xF0 then 0x90 else 0x80, if t[0] as int == 0xF4 then 0x8F else 0xBF)
         && IsContinuation(t[2]) && IsContinuation(t[3]) then 4 else 0
    else 0
  }

  lemma RuneLengthBound(t: Text)
    ensures RuneLength(t) <= |t| && RuneLength(t) <= 4
    ensures RuneLength(t) > 0 ==> RuneStart(t[0])
    ensures forall k :: 1 <= k < RuneLength(t) ==> IsContinuation(t[k])
  {}

  predicate Valid(t: Text)
    decreases |t|
  {
    t == [] || (RuneLength(t) > 0 && RuneLength(t) <= |t| && Valid(t[RuneLength(t)..]))
  }

  /** Replaces every byte that is not part of a character by U+FFFD, as ranging over a string does. */
  function Sanitize(t: Text): Text
    decreases |t|
  {
    if t == [] then []
    else if 0 < RuneLength(t) <= |t| then t[..RuneLength(t)] + Sanitize(t[RuneLength(t)..])
    else REPLACEMENT + Sanitize(t[1..])
  }

  lemma RuneLengthPrefix(a: Text, b: Text)
    requires RuneLength(a) > 0
    ensures RuneLength(a + b) == RuneLength(a)
  {
    RuneLengthBound(a);
    assert forall k :: 0 <= k < |a| ==> (a + b)[k] == a[k];
  }

  lemma {:induction false} ValidConcat(a: Text, b: Text)
    requires Valid(a) && Valid(b)
    ensures Valid(a + b)
    decreases |a|
  {
    hide RuneLength;
    if a == [] {
      assert a + b == b;
    } else {
      var n := RuneLength(a);
      RuneLengthPrefix(a, b);
      ValidConcat(a[n..], b);
      assert (a + b)[n..] == a[n..] + b;
    }
  }

  /** Valid text can be cut wherever a character starts. */
  lemma {:induction false} ValidSplit(t: Text, k: nat)
    requires Valid(t) && k <= |t| && (k < |t| ==> RuneStart(t[k]))
    ensures Valid(t[..k]) && Valid(t[k..])
    decreases |t|
  {
    hide RuneLength;
    if k == 0 {
      assert t[k..] == t && t[..k] == [];
    } else {
      var n := RuneLength(t);
      RuneLengthBound(t);
      assert n <= k;
      ValidSplit(t[n..], k - n);
      assert t[n..][k - n..] == t[k..];
      assert t[n..][..k - n] == t[..k][n..];
      assert t == t[..k] + t[k..];
      FrontOfPrefix(t, k);
    }
  }

  lemma FrontOfPrefix(t: Text, k: nat)
    requires 0 < RuneLength(t) <= k <= |t|
    ensures RuneLength(t[..k]) == RuneLength(t)
  {
    RuneLengthBound(t);
    assert forall i :: 0 <= i < k ==> t[..k][i] == t[i];
  }

  /** After an ASCII byte the next character starts. */
  lemma AfterAscii(t: Text, k: nat)
    requires Valid(t) && k < |t| && Between(t[k], 0, 0x7F)
    ensures k + 1 < |t| ==> RuneStart(t[k + 1])
  {
    ValidSplit(t, k);
    var rest := t[k..];
    assert rest[0] == t[k];
    if k + 1 < |t| {
      assert rest[1..][0] == t[k + 1];
      RuneLengthBound(rest[1..]);
    }
  }

  lemma {:induction false} SanitizeValid(t: Text)
    ensures Valid(Sanitize(t))
    decreases |t|
  {
    if t == [] {
    } else if 0 < RuneLength(t) <= |t| {
      var n := RuneLength(t);
      SanitizeValid(t[n..]);
      FrontOfPrefix(t, n);
      assert t[..n][n..] == [];
      ValidConcat(t[..n], Sanitize(t[n..]));
    } else {
      SanitizeValid(t[1..]);
      assert RuneLength(REPLACEMENT) == 3 && REPLACEMENT[3..] == [];
      ValidConcat(REPLACEMENT, Sanitize(t[1..]));
    }
  }

  lemma {:induction false} SanitizeUnchanged(t: Text)
    requires Valid(t)
    ensures Sanitize(t) == t
    decreases |t|
  {
    if t != [] {
      SanitizeUnchanged(t[RuneLength(t)..]);
    }
  }
}
