/** The rewriter that omits inline media payloads: core/services/compressor.go, lines 559-595.

    A payload is a `data:` reference (section 3 of RFC 2397) whose first `;base64,` is
    followed by at least one character of the base64 alphabet (section 4 of RFC 4648). */
module InlineMedia {
  import opened Utf8

  const DATA: Text := "data:"
  const BASE64: Text := ";base64,"
  const MARKER: Text := "[inline media payload omitted]"

  predicate IsBase64(b: char) {
    'a' <= b <= 'z' || 'A' <= b <= 'Z' || '0' <= b <= '9' || b == '+' || b == '/' || b == '='
  }

  predicate At(t: Text, pattern: Text, i: int) {
    0 <= i <= i + |pattern| <= |t| && t[i..i + |pattern|] == pattern
  }

  /** strings.Index from a position: the first occurrence, or -1. */
  function Index(t: Text, pattern: Text, from: nat): (r: int)
    requires from <= |t|
    ensures r == -1 || (from <= r && r + |pattern| <= |t| && At(t, pattern, r))
    ensures r == -1 ==> forall i :: from <= i ==> !At(t, pattern, i)
    ensures r != -1 ==> forall i :: from <= i < r ==> !At(t, pattern, i)
    decreases |t| - from
  {
    if At(t, pattern, from) then from
    else if from == |t| then -1
    else Index(t, pattern, from + 1)
  }

  /** Where the run of base64 characters from `from` ends. */
  function PayloadEnd(t: Text, from: nat): (r: nat)
    requires from <= |t|
    ensures from <= r <= |t|
    ensures forall i :: from <= i < r ==> IsBase64(t[i])
    ensures r < |t| ==> !IsBase64(t[r])
    decreases |t| - from
  {
    if from < |t| && IsBase64(t[from]) then PayloadEnd(t, from + 1) else from
  }

  // ---------------------------------------------------------------------
  // What the rewriter is for
  // ---------------------------------------------------------------------

  /** A payload starts with the `data:` at `d`; `c` is its first `;base64,`. */
  predicate Payload(t: Text, d: int, c: int) {
    && At(t, DATA, d) && d <= c && At(t, BASE64, c)
    && (forall k :: d <= k < c ==> !At(t, BASE64, k))
    && c + |BASE64| < |t| && IsBase64(t[c + |BASE64|])
  }

  /** No payload anywhere. */
  ghost predicate Clean(t: Text) {
    forall d, c :: !Payload(t, d, c)
  }

  /** Whether a payload starts at `d`: there is only one `;base64,` to look at. */
  predicate StartsAt(t: Text, d: nat)
    requires d <= |t|
  {
    At(t, DATA, d) && var c := Index(t, BASE64, d); c != -1 && Payload(t, d, c)
  }

  lemma StartsAtIff(t: Text, d: nat)
    requires d <= |t|
    ensures StartsAt(t, d) <==> Payload(t, d, Index(t, BASE64, d))
    ensures forall c :: Payload(t, d, c) ==> c == Index(t, BASE64, d)
  {}

  /** The text after the payload that starts it. */
  function AfterPayload(t: Text): (rest: Text)
    requires StartsAt(t, 0)
    ensures |rest| < |t|
  {
    t[PayloadEnd(t, Index(t, BASE64, 0) + |BASE64|)..]
  }

  /** Leftmost payloads replaced by the marker, everything else copied. */
  function Omitted(t: Text): Text
    decreases |t|
  {
    if t == [] then []
    else if StartsAt(t, 0) then MARKER + Omitted(AfterPayload(t))
    else [t[0]] + Omitted(t[1..])
  }

  // ---------------------------------------------------------------------
  // Positions and shifts
  // ---------------------------------------------------------------------

  lemma AtShift(a: Text, t: Text, pattern: Text, i: int)
    requires i >= 0
    ensures At(a + t, pattern, |a| + i) == At(t, pattern, i)
  {
    if i + |pattern| <= |t| {
      assert (a + t)[|a| + i..|a| + i + |pattern|] == t[i..i + |pattern|];
    }
  }

  lemma PayloadShift(a: Text, t: Text, d: int, c: int)
    requires d >= 0
    ensures Payload(a + t, |a| + d, |a| + c) == Payload(t, d, c)
  {
    AtShift(a, t, DATA, d);
    if d <= c {
      AtShift(a, t, BASE64, c);
      forall k | d <= k < c ensures At(a + t, BASE64, |a| + k) == At(t, BASE64, k) {
        AtShift(a, t, BASE64, k);
      }
      if forall k :: d <= k < c ==> !At(t, BASE64, k) {
        forall k | |a| + d <= k < |a| + c ensures !At(a + t, BASE64, k) {
          AtShift(a, t, BASE64, k - |a|);
        }
      }
    }
  }

  /** An occurrence fixes the bytes it covers. */
  lemma AtBytes(t: Text, pattern: Text, i: int)
    requires At(t, pattern, i)
    ensures forall k :: i <= k < i + |pattern| ==> t[k] == pattern[k - i]
  {
    assert forall k :: i <= k < i + |pattern| ==> t[k] == t[i..i + |pattern|][k - i];
  }

  /** Bytes that agree with the pattern are an occurrence. */
  lemma BytesAt(t: Text, pattern: Text, i: int)
    requires 0 <= i && i + |pattern| <= |t| && forall k :: i <= k < i + |pattern| ==> t[k] == pattern[k - i]
    ensures At(t, pattern, i)
  {}

  /** A position that lies before a cut sees the same pattern on both sides of it. */
  lemma AtPrefix(a: Text, t: Text, pattern: Text, i: int)
    requires 0 <= i && i + |pattern| <= |a|
    ensures At(a + t, pattern, i) == At(a, pattern, i)
  {
    assert (a + t)[i..i + |pattern|] == a[i..i + |pattern|];
  }

  lemma StartsAtShift(a: Text, t: Text, d: nat)
    requires d <= |t|
    ensures StartsAt(a + t, |a| + d) == StartsAt(t, d)
  {
    hide Payload, At;
    var s, e := a + t, |a| + d;
    StartsAtIff(s, e);
    StartsAtIff(t, d);
    PayloadShift(a, t, d, Index(s, BASE64, e) - |a|);
    PayloadShift(a, t, d, Index(t, BASE64, d));
  }

  lemma OmittedCopied(t: Text)
    requires t != [] && !StartsAt(t, 0)
    ensures Omitted(t) == [t[0]] + Omitted(t[1..])
  {
    hide At, Payload, Index, PayloadEnd, StartsAt;
  }

  /** Bytes before the first payload are copied. */
  lemma {:induction false} CopyPrefix(t: Text, k: nat)
    requires k <= |t| && forall d :: 0 <= d < k ==> !StartsAt(t, d)
    ensures Omitted(t) == t[..k] + Omitted(t[k..])
    decreases k
  {
    hide At, Payload, Index, PayloadEnd, StartsAt, Omitted;
    if k == 0 {
      assert t[k..] == t;
    } else {
      OmittedCopied(t);
      var rest := t[1..];
      forall d | 0 <= d < k - 1 ensures !StartsAt(rest, d) {
        StartsAtShift([t[0]], rest, d);
        assert [t[0]] + rest == t;
      }
      CopyPrefix(rest, k - 1);
      assert rest[k - 1..] == t[k..];
      assert t[..k] == [t[0]] + rest[..k - 1];
    }
  }

  lemma NoPayloadCopied(t: Text)
    requires forall d :: 0 <= d < |t| ==> !StartsAt(t, d)
    ensures Omitted(t) == t
  {
    CopyPrefix(t, |t|);
  }

  lemma NoReferenceCopied(t: Text)
    requires Index(t, DATA, 0) == -1
    ensures Omitted(t) == t
  {
    NoPayloadCopied(t);
  }

  /** What the first `data:` of a text decides, before any rewriting. */
  lemma FirstReference(t: Text, d: nat)
    requires At(t, DATA, d) && forall e :: 0 <= e < d ==> !At(t, DATA, e)
    ensures var c := Index(t, BASE64, d);
      && (c == -1 ==> forall e :: 0 <= e <= |t| ==> !StartsAt(t, e))
      && (c != -1 && PayloadEnd(t, c + |BASE64|) == c + |BASE64| ==>
            forall e :: 0 <= e < c + |BASE64| ==> !StartsAt(t, e))
      && (c != -1 && PayloadEnd(t, c + |BASE64|) > c + |BASE64| ==>
            StartsAt(t, d) && forall e :: 0 <= e < d ==> !StartsAt(t, e))
  {
    var c := Index(t, BASE64, d);
    if c != -1 {
      forall e | d <= e <= c ensures Index(t, BASE64, e) == c {
      }
      forall e | c < e < c + |BASE64| ensures !At(t, DATA, e) {
        NoReferenceInBase64(t, c, e);
      }
    }
  }

  lemma NoReferenceInBase64(t: Text, c: int, e: int)
    requires At(t, BASE64, c) && c < e < c + |BASE64|
    ensures !At(t, DATA, e)
  {
    AtBytes(t, BASE64, c);
    assert forall i :: 1 <= i < |BASE64| ==> BASE64[i] != 'd';
    assert t[e] != 'd';
    if At(t, DATA, e) {
      AtBytes(t, DATA, e);
    }
  }

  // ---------------------------------------------------------------------
  // Omitting leaves nothing to omit
  // ---------------------------------------------------------------------

  lemma NoReferenceInMarker(s: Text, d: nat)
    requires d < |MARKER|
    ensures !At(MARKER + s, DATA, d)
  {
    var t, last := MARKER + s, |MARKER| - 1;
    assert forall i :: 0 <= i < |MARKER| ==> MARKER[i] != ':' && t[i] == MARKER[i];
    assert t[last] == ']';
    assert d + 4 < |MARKER| ==> t[d + 4] == MARKER[d + 4];
    if At(t, DATA, d) {
      AtBytes(t, DATA, d);
    }
  }

  lemma CleanAfterMarker(s: Text)
    requires Clean(s)
    ensures Clean(MARKER + s)
  {
    var t := MARKER + s;
    forall d, c ensures !Payload(t, d, c) {
      if 0 <= d < |MARKER| {
        NoReferenceInMarker(s, d);
      } else if d >= |MARKER| {
        PayloadShift(MARKER, s, d - |MARKER|, c - |MARKER|);
      }
    }
  }

  lemma FirstByte(t: Text)
    requires t != []
    ensures Omitted(t) != [] && (Omitted(t)[0] == t[0] || Omitted(t)[0] == '[')
  {}

  lemma NotMarkedNotStarted(t: Text)
    requires Omitted(t) != [] && Omitted(t)[0] != '['
    ensures t != [] && Omitted(t) == [t[0]] + Omitted(t[1..])
  {
    EmptyOmitted();
    OmittedShape(t);
  }

  lemma OmittedShape(t: Text)
    requires t != []
    ensures Omitted(t) != [] && (Omitted(t)[0] == '[' || Omitted(t) == [t[0]] + Omitted(t[1..]))
  {
    hide AfterPayload, StartsAt;
    assert MARKER[0] == '[';
  }

  /** Where the output shows no marker, it is the input. */
  lemma {:induction false} PrefixReflects(t: Text, n: nat)
    requires n <= |Omitted(t)| && forall i :: 0 <= i < n ==> Omitted(t)[i] != '['
    ensures n <= |t| && forall i :: 0 <= i < n ==> Omitted(t)[i] == t[i]
    decreases n
  {
    if n > 0 {
      NotMarkedNotStarted(t);
      var rest := Omitted(t[1..]);
      assert forall i :: 0 <= i < n - 1 ==> rest[i] == Omitted(t)[i + 1];
      PrefixReflects(t[1..], n - 1);
      assert forall i :: 1 <= i < n ==> Omitted(t)[i] == rest[i - 1] == t[1..][i - 1];
    }
  }

  /** A `data:` at the front of an output was at the front of the input. */
  lemma FrontReflects(t: Text)
    requires At(Omitted(t), DATA, 0)
    ensures At(t, DATA, 0)
  {
    hide Omitted;
    AtBytes(Omitted(t), DATA, 0);
    PrefixReflects(t, |DATA|);
    BytesAt(t, DATA, 0);
  }

  /** The bytes up to a first `;base64,` that starts no payload are copied, and still start none. */
  lemma NoPayloadAtFront(t: Text, k: nat, r: Text)
    requires |BASE64| <= k <= |t| && Index(t, BASE64, 0) == k - |BASE64|
    requires k < |t| ==> !IsBase64(t[k])
    requires |r| >= k && forall i :: 0 <= i < k ==> r[i] == t[i]
    requires |r| > k ==> k < |t| && (r[k] == t[k] || r[k] == '[')
    ensures forall c :: !Payload(r, 0, c)
  {
    hide At, Index, PayloadEnd, StartsAt;
    SamePrefixAt(t, r, k, BASE64);
    assert At(r, BASE64, k - |BASE64|);
  }

  lemma SamePrefixAt(t: Text, r: Text, k: nat, pattern: Text)
    requires k <= |t| && k <= |r| && forall i :: 0 <= i < k ==> r[i] == t[i]
    ensures forall e :: 0 <= e <= k - |pattern| ==> At(r, pattern, e) == At(t, pattern, e)
  {
    forall e | 0 <= e <= k - |pattern| ensures At(r, pattern, e) == At(t, pattern, e) {
      assert r[e..e + |pattern|] == t[e..e + |pattern|];
    }
  }

  /** No payload starts at the front of an output that copies its first byte. */
  lemma CleanFront(t: Text)
    requires t != [] && !StartsAt(t, 0)
    ensures forall c :: !Payload(Omitted(t), 0, c)
  {
    hide Omitted;
    var r := Omitted(t);
    if At(r, DATA, 0) {
      FrontReflects(t);
      FirstReference(t, 0);
      var c := Index(t, BASE64, 0);
      if c == -1 {
        NoPayloadCopied(t);
      } else {
        var k := c + |BASE64|;
        CopyPrefix(t, k);
        if k < |t| {
          FirstByte(t[k..]);
        }
        EmptyOmitted();
        NoPayloadAtFront(t, k, r);
      }
    }
  }

  lemma EmptyOmitted()
    ensures Omitted([]) == []
  {}

  lemma {:induction false} OmittedClean(t: Text)
    ensures Clean(Omitted(t))
    decreases |t|
  {
    hide StartsAt, AfterPayload;
    if t == [] {
    } else if StartsAt(t, 0) {
      OmittedClean(AfterPayload(t));
      CleanAfterMarker(Omitted(AfterPayload(t)));
    } else {
      OmittedClean(t[1..]);
      CleanFront(t);
      forall d, c | d >= 1 ensures !Payload(Omitted(t), d, c) {
        PayloadShift([t[0]], Omitted(t[1..]), d - 1, c - 1);
      }
    }
  }

  lemma CleanUnchanged(t: Text)
    requires Clean(t)
    ensures Omitted(t) == t
  {
    NoPayloadCopied(t);
  }

  /** Omitting payloads twice is omitting them once. */
  lemma OmittedIdempotent(t: Text)
    ensures Omitted(Omitted(t)) == Omitted(t)
  {
    OmittedClean(t);
    CleanUnchanged(Omitted(t));
  }

  /** Cutting clean text, and ending it with text that cannot complete a reference, keeps it clean. */
  lemma CleanTruncated(t: Text, k: nat, end: Text)
    requires Clean(t) && k <= |t|
    requires forall i :: 0 <= i < |end| ==> end[i] != ':' && end[i] != ','
    requires end != [] ==> !IsBase64(end[0])
    ensures Clean(t[..k] + end)
  {
    var s := t[..k] + end;
    assert forall i :: 0 <= i < k ==> s[i] == t[i];
    assert forall i :: k <= i < |s| ==> s[i] == end[i - k];
    forall d, c ensures !Payload(s, d, c) {
      if Payload(s, d, c) {
        AtBytes(s, DATA, d);
        AtBytes(s, BASE64, c);
        assert s[d + 4] == ':' && s[c + 7] == ',';
        assert d + 5 <= k && c + 8 < k;
        InPrefix(t, k, end, d, c);
      }
    }
  }

  lemma InPrefix(t: Text, k: nat, end: Text, d: int, c: int)
    requires k <= |t| && 0 <= d && d + |DATA| <= k && 0 <= c && c + |BASE64| < k
    ensures Payload(t[..k] + end, d, c) == Payload(t, d, c)
  {
    assert t == t[..k] + t[k..];
    AtPrefix(t[..k], end, DATA, d);
    AtPrefix(t[..k], t[k..], DATA, d);
    forall e | 0 <= e <= c ensures At(t[..k] + end, BASE64, e) == At(t, BASE64, e) {
      AtPrefix(t[..k], end, BASE64, e);
      AtPrefix(t[..k], t[k..], BASE64, e);
    }
  }

  // ---------------------------------------------------------------------
  // Well-formed text stays well formed
  // ---------------------------------------------------------------------

  lemma {:induction false} AsciiValid(t: Text)
    requires forall i :: 0 <= i < |t| ==> Between(t[i], 0, 0x7F)
    ensures Valid(t)
    decreases |t|
  {
    if t != [] {
      AsciiValid(t[1..]);
    }
  }

  /** What follows a payload is well formed: the payload is ASCII. */
  lemma RestValid(t: Text)
    requires Valid(t) && StartsAt(t, 0)
    ensures Valid(AfterPayload(t))
  {
    hide RuneLength, At, Valid;
    var end := PayloadEnd(t, Index(t, BASE64, 0) + |BASE64|);
    AfterAscii(t, end - 1);
    ValidSplit(t, end);
  }

  lemma {:induction false} OmittedValid(t: Text)
    requires Valid(t)
    ensures Valid(Omitted(t))
    decreases |t|
  {
    hide RuneLength, AfterPayload, StartsAt;
    if t == [] {
    } else if StartsAt(t, 0) {
      RestValid(t);
      OmittedValid(AfterPayload(t));
      AsciiValid(MARKER);
      ValidConcat(MARKER, Omitted(AfterPayload(t)));
    } else {
      var n := RuneLength(t);
      RuneIsCopied(t);
      OmittedValid(t[n..]);
      ValidConcat(t[..n], Omitted(t[n..]));
    }
  }

  lemma NotStartedAt(t: Text, d: nat)
    requires d < |t| && t[d] != 'd'
    ensures !StartsAt(t, d)
  {
    if At(t, DATA, d) {
      AtBytes(t, DATA, d);
    }
  }

  /** A character that starts no payload is copied whole. */
  lemma RuneIsCopied(t: Text)
    requires Valid(t) && t != [] && !StartsAt(t, 0)
    ensures var n := RuneLength(t);
      && 0 < n <= |t| && Valid(t[..n]) && Valid(t[n..])
      && Omitted(t) == t[..n] + Omitted(t[n..])
  {
    hide RuneLength, Omitted, At, Payload, Index, PayloadEnd, StartsAt;
    var n := RuneLength(t);
    RuneLengthBound(t);
    forall d | 1 <= d < n ensures !StartsAt(t, d) {
      NotStartedAt(t, d);
    }
    CopyPrefix(t, n);
    if n < |t| {
      RuneLengthBound(t[n..]);
    }
    ValidSplit(t, n);
  }

  // ---------------------------------------------------------------------
  // The rewriting loop
  // ---------------------------------------------------------------------

  /** The source's loop: it rewrites `text` in place and skips what it has looked at. */
  method OmitInlineMediaPayloads(input: Text) returns (text: Text)
    ensures text == Omitted(Sanitize(input))
    ensures Clean(text) && Valid(text)
  {
    hide Omitted, StartsAt, Valid, Sanitize, At, Payload, Index, PayloadEnd, Clean, IsBase64;
    text := input;
    EmptyOmitted();
    if Valid(text) {
      SanitizeUnchanged(text);
    } else {
      text := Sanitize(text);
    }
    ghost var original := text;
    var searchFrom := 0;
    while searchFrom < |text|
      invariant 0 <= searchFrom <= |text|
      invariant Omitted(original) == text[..searchFrom] + Omitted(text[searchFrom..])
      decreases |text| - searchFrom
    {
      ghost var done, rest := text[..searchFrom], text[searchFrom..];
      var offset := Index(text[searchFrom..], DATA, 0);
      if offset < 0 {
        NoReferenceCopied(rest);
        assert done + rest == text;
        searchFrom := |text|;
        break;
      }
      var dataIndex := searchFrom + offset;
      var comma := Index(text[searchFrom..], BASE64, offset);
      if comma < 0 {
        CopyStep(text, searchFrom, offset, offset + |DATA|);
        searchFrom := dataIndex + |DATA|;
        continue;
      }
      var payloadStart := searchFrom + comma + |BASE64|;
      var payloadEnd := searchFrom + PayloadEnd(text[searchFrom..], comma + |BASE64|);
      if payloadEnd == payloadStart {
        CopyStep(text, searchFrom, offset, comma + |BASE64|);
        searchFrom := payloadStart;
        continue;
      }
      OmitStep(text, searchFrom, offset, comma, payloadEnd);
      text := text[..dataIndex] + MARKER + text[payloadEnd..];
      searchFrom := dataIndex + |MARKER|;
    }
    assert text[..searchFrom] == text && text[searchFrom..] == [];
    OmittedWellFormed(input);
  }

  lemma OmittedWellFormed(input: Text)
    ensures Clean(Omitted(Sanitize(input))) && Valid(Omitted(Sanitize(input)))
  {
    OmittedClean(Sanitize(input));
    SanitizeValid(input);
    OmittedValid(Sanitize(input));
  }

  /** A reference without a payload: what was searched is copied. */
  lemma CopyStep(text: Text, from: nat, offset: nat, k: nat)
    requires from <= |text| && offset == Index(text[from..], DATA, 0)
    requires var c := Index(text[from..], BASE64, offset);
      if c == -1 then k == offset + |DATA|
      else k == c + |BASE64| && PayloadEnd(text[from..], k) == k
    ensures from + k <= |text|
    ensures text[..from] + Omitted(text[from..]) == text[..from + k] + Omitted(text[from + k..])
  {
    hide Omitted, At, Payload, Index, PayloadEnd, StartsAt;
    var rest := text[from..];
    FirstReference(rest, offset);
    CopyPrefix(rest, k);
    assert rest[k..] == text[from + k..];
    assert text[..from] + rest[..k] == text[..from + k];
  }

  /** A reference with a payload: the marker takes its place. */
  lemma OmitStep(text: Text, from: nat, offset: nat, c: nat, end: nat)
    requires from <= |text| && offset == Index(text[from..], DATA, 0) && c == Index(text[from..], BASE64, offset)
    requires end == from + PayloadEnd(text[from..], c + |BASE64|) > from + c + |BASE64|
    ensures var replaced := text[..from + offset] + MARKER + text[end..];
      text[..from] + Omitted(text[from..]) ==
      replaced[..from + offset + |MARKER|] + Omitted(replaced[from + offset + |MARKER|..])
  {
    hide Omitted, At, Payload, Index, PayloadEnd, StartsAt;
    var rest := text[from..];
    FirstReference(rest, offset);
    CopyPrefix(rest, offset);
    OmitFront(rest, offset, c);
    var replaced := text[..from + offset] + MARKER + text[end..];
    assert replaced[..from + offset + |MARKER|] == text[..from] + (rest[..offset] + MARKER);
    assert replaced[from + offset + |MARKER|..] == rest[end - from..];
  }

  /** A payload that starts at `d` is replaced as if the text began there. */
  lemma OmitFront(t: Text, d: nat, c: nat)
    requires d <= |t| && StartsAt(t, d) && c == Index(t, BASE64, d)
    ensures Omitted(t[d..]) == MARKER + Omitted(t[PayloadEnd(t, c + |BASE64|)..])
  {
    hide Omitted, Payload, At, Index, PayloadEnd, StartsAt;
    var s := t[d..];
    assert t == t[..d] + s;
    StartsAtShift(t[..d], s, 0);
    IndexShift(t, d, c);
    PayloadEndShift(t, d, c - d + |BASE64|);
    assert AfterPayload(s) == t[PayloadEnd(t, c + |BASE64|)..];
    OmittedMarked(s);
  }

  lemma OmittedMarked(t: Text)
    requires t != [] && StartsAt(t, 0)
    ensures Omitted(t) == MARKER + Omitted(AfterPayload(t))
  {}

  lemma IndexShift(t: Text, d: nat, c: nat)
    requires d <= |t| && c == Index(t, BASE64, d)
    ensures Index(t[d..], BASE64, 0) == c - d
  {
    hide At;
    var s := t[d..];
    assert t == t[..d] + s;
    var c0 := Index(s, BASE64, 0);
    AtShift(t[..d], s, BASE64, c - d);
    if c0 != -1 {
      AtShift(t[..d], s, BASE64, c0);
    }
  }

  lemma {:induction false} PayloadEndShift(t: Text, d: nat, from: nat)
    requires d + from <= |t|
    ensures PayloadEnd(t[d..], from) + d == PayloadEnd(t, d + from)
    decreases |t| - from
  {
    if d + from < |t| && IsBase64(t[d + from]) {
      PayloadEndShift(t, d, from + 1);
    }
  }
}
