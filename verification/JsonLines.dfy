/** Newline-delimited record files: core/session/file_store.go and runtime_wal.go.

    A file is a sequence of bytes, written here as characters.  JSON itself is a
    parameter: a codec whose laws are the ones JSON objects have. */
module JsonLines {
  import opened Wrappers

  type Bytes = string

  const NEWLINE: char := '\n'
  const RETURN: char := '\r'

  datatype Codec<!T(!new)> = Codec(encode: T -> Bytes, decode: Bytes -> Option<T>)
  {
    /** One JSON object per line: it starts with a brace, escapes line breaks, is
        never a prefix of itself, and tolerates the line ending after it. */
    ghost predicate Lawful() {
      && (forall x :: encode(x) != [] && encode(x)[0] == '{')
      && (forall x :: NEWLINE !in encode(x) && RETURN !in encode(x))
      && (forall x :: decode(encode(x)) == Some(x))
      && (forall x, k :: 0 <= k < |encode(x)| ==> decode(encode(x)[..k]) == None)
      && (forall line :: decode(line + [RETURN]) == decode(line))
      && (forall line :: decode(line + [NEWLINE]) == decode(line))
      && decode([]) == None
    }

    /** The file holding exactly these records. */
    function EncodeAll(items: seq<T>): Bytes {
      if items == [] then [] else encode(items[0]) + [NEWLINE] + EncodeAll(items[1..])
    }

    /** Where record `k` of a file of `items` starts. */
    function Offset(items: seq<T>, k: nat): nat
      requires k <= |items|
    {
      |EncodeAll(items[..k])|
    }
  }

  /** How many of these records end within the first `bytes` bytes of their file. */
  function Whole<T(!new)>(c: Codec<T>, items: seq<T>, bytes: nat): (n: nat)
    ensures n <= |items|
  {
    if items == [] || bytes < |c.encode(items[0])| + 1 then 0
    else 1 + Whole(c, items[1..], bytes - |c.encode(items[0])| - 1)
  }

  // ---------------------------------------------------------------------
  // Reading a whole file, as readDisplayItemsLocked does
  // ---------------------------------------------------------------------

  /** The first line break at or after `from`, or -1. */
  function FirstNewline(data: Bytes, from: nat): (r: int)
    requires from <= |data|
    ensures r == -1 ==> forall k :: from <= k < |data| ==> data[k] != NEWLINE
    ensures r != -1 ==> from <= r < |data| && data[r] == NEWLINE
    ensures r != -1 ==> forall k :: from <= k < r ==> data[k] != NEWLINE
    decreases |data| - from
  {
    if from == |data| then -1
    else if data[from] == NEWLINE then from
    else FirstNewline(data, from + 1)
  }

  /** The complete lines; an unterminated tail is not a line. */
  function SplitLines(data: Bytes): seq<Bytes> {
    var i := FirstNewline(data, 0);
    if i == -1 then [] else [data[..i]] + SplitLines(data[i + 1..])
  }

  function TrimReturn(line: Bytes): Bytes {
    if line != [] && line[|line| - 1] == RETURN then line[..|line| - 1] else line
  }

  /** Two partial reads, one after the other; a failed one fails both. */
  function Then<T>(a: Option<seq<T>>, b: Option<seq<T>>): Option<seq<T>> {
    if a.Some? && b.Some? then Some(a.value + b.value) else None
  }

  /** One line's record: none if it is empty, a failure if it does not decode. */
  function DecodeLine<T(!new)>(c: Codec<T>, line: Bytes): Option<seq<T>> {
    if line == [] then Some([])
    else match c.decode(TrimReturn(line))
      case None => None
      case Some(x) => Some([x])
  }

  /** Decodes lines in order; one bad line fails the read. */
  function DecodeLines<T(!new)>(c: Codec<T>, lines: seq<Bytes>): Option<seq<T>> {
    if lines == [] then Some([]) else Then(DecodeLine(c, lines[0]), DecodeLines(c, lines[1..]))
  }

  /** What a full read of the file returns. */
  function ReadAll<T(!new)>(c: Codec<T>, data: Bytes): Option<seq<T>> {
    DecodeLines(c, SplitLines(data))
  }

  // ---------------------------------------------------------------------
  // Shape of written files
  // ---------------------------------------------------------------------

  lemma {:induction false} EncodeAllConcat<T(!new)>(c: Codec<T>, a: seq<T>, b: seq<T>)
    ensures c.EncodeAll(a + b) == c.EncodeAll(a) + c.EncodeAll(b)
  {
    if a == [] {
      assert a + b == b;
    } else {
      EncodeAllConcat(c, a[1..], b);
      assert (a + b)[1..] == a[1..] + b;
    }
  }

  /** The record at position `k` occupies exactly the bytes from its offset to the next one's. */
  lemma OffsetStep<T(!new)>(c: Codec<T>, items: seq<T>, k: nat)
    requires k < |items|
    ensures c.Offset(items, k + 1) == c.Offset(items, k) + |c.encode(items[k])| + 1
    ensures c.Offset(items, k + 1) <= |c.EncodeAll(items)|
    ensures c.EncodeAll(items)[c.Offset(items, k)..c.Offset(items, k + 1)] == c.encode(items[k]) + [NEWLINE]
  {
    assert items[..k + 1] == items[..k] + [items[k]];
    EncodeAllConcat(c, items[..k], [items[k]]);
    assert items == items[..k + 1] + items[k + 1..];
    EncodeAllConcat(c, items[..k + 1], items[k + 1..]);
    assert c.EncodeAll([items[k]]) == c.encode(items[k]) + [NEWLINE];
  }

  lemma {:induction false} OffsetMonotone<T(!new)>(c: Codec<T>, items: seq<T>, j: nat, k: nat)
    requires j <= k <= |items|
    ensures c.Offset(items, j) + (k - j) <= c.Offset(items, k) <= |c.EncodeAll(items)|
    decreases k - j
  {
    assert items[..|items|] == items;
    if j < k {
      OffsetStep(c, items, j);
      OffsetMonotone(c, items, j + 1, k);
    } else {
      assert items == items[..k] + items[k..];
      EncodeAllConcat(c, items[..k], items[k..]);
    }
  }

  /** A line break ends the first line, and the rest is split on its own. */
  lemma SplitFirst(line: Bytes, rest: Bytes)
    requires NEWLINE !in line
    ensures SplitLines(line + [NEWLINE] + rest) == [line] + SplitLines(rest)
  {
    var data := line + [NEWLINE] + rest;
    assert data[|line|] == NEWLINE;
    assert forall k :: 0 <= k < |line| ==> data[k] == line[k];
    assert FirstNewline(data, 0) == |line|;
    assert data[..|line|] == line && data[|line| + 1..] == rest;
  }

  lemma ReadFirst<T(!new)>(c: Codec<T>, line: Bytes, rest: Bytes)
    requires NEWLINE !in line
    ensures ReadAll(c, line + [NEWLINE] + rest) == Then(DecodeLine(c, line), ReadAll(c, rest))
  {
    SplitFirst(line, rest);
    assert ([line] + SplitLines(rest))[1..] == SplitLines(rest);
  }

  lemma {:induction false} DecodeEncoded<T(!new)>(c: Codec<T>, items: seq<T>, torn: Bytes)
    requires c.Lawful() && NEWLINE !in torn
    ensures ReadAll(c, c.EncodeAll(items) + torn) == Some(items)
  {
    var data := c.EncodeAll(items) + torn;
    if items == [] {
      assert data == torn;
      assert FirstNewline(torn, 0) == -1;
    } else {
      var line := c.encode(items[0]);
      var rest := c.EncodeAll(items[1..]) + torn;
      assert data == line + [NEWLINE] + rest;
      ReadFirst(c, line, rest);
      DecodeEncoded(c, items[1..], torn);
      assert TrimReturn(line) == line by {
        assert line[|line| - 1] in line;
      }
      assert [items[0]] + items[1..] == items;
    }
  }

  /** Cutting a write at any byte leaves a whole number of its records and a
      newline-free rest, and the whole records are those that end at or before the cut. */
  lemma {:induction false} CutAnywhere<T(!new)>(c: Codec<T>, items: seq<T>, cut: nat) returns (whole: nat, torn: Bytes)
    requires c.Lawful() && cut <= |c.EncodeAll(items)|
    ensures whole <= |items| && NEWLINE !in torn
    ensures c.EncodeAll(items)[..cut] == c.EncodeAll(items[..whole]) + torn
    ensures forall k :: 0 <= k <= |items| ==> (k <= whole <==> c.Offset(items, k) <= cut)
  {
    if items == [] {
      whole, torn := 0, [];
    } else {
      var line := c.encode(items[0]);
      var rest := c.EncodeAll(items[1..]);
      if cut <= |line| {
        whole, torn := 0, line[..cut];
        assert c.EncodeAll(items)[..cut] == torn;
        forall k | 0 <= k <= |items| ensures k <= whole <==> c.Offset(items, k) <= cut {
          if k > 0 {
            OffsetStep(c, items, 0);
            OffsetMonotone(c, items, 1, k);
          }
        }
      } else {
        var w;
        w, torn := CutAnywhere(c, items[1..], cut - |line| - 1);
        whole := w + 1;
        assert c.EncodeAll(items)[..cut] == line + [NEWLINE] + rest[..cut - |line| - 1];
        assert items[..whole][1..] == items[1..][..w];
        assert c.EncodeAll(items[..whole]) == line + [NEWLINE] + c.EncodeAll(items[1..][..w]);
        forall k | 0 <= k <= |items| ensures k <= whole <==> c.Offset(items, k) <= cut {
          if k > 0 {
            assert items[..k][1..] == items[1..][..k - 1];
            assert c.Offset(items, k) == |line| + 1 + c.Offset(items[1..], k - 1);
          }
        }
      }
    }
  }

  /** These are the records whose end lies at or before the cut. */
  lemma {:induction false} WholeByOffset<T(!new)>(c: Codec<T>, items: seq<T>, bytes: nat, k: nat)
    requires k <= |items|
    ensures k <= Whole(c, items, bytes) <==> c.Offset(items, k) <= bytes
  {
    if k > 0 {
      var rest := items[1..];
      assert items[..k][1..] == rest[..k - 1];
      assert c.Offset(items, k) == |c.encode(items[0])| + 1 + c.Offset(rest, k - 1);
      if bytes >= |c.encode(items[0])| + 1 {
        WholeByOffset(c, rest, bytes - |c.encode(items[0])| - 1, k - 1);
      }
    }
  }

  lemma WholeUnique<T(!new)>(c: Codec<T>, items: seq<T>, bytes: nat, kept: nat)
    requires kept <= |items|
    requires forall k :: 0 <= k <= |items| ==> (k <= kept <==> c.Offset(items, k) <= bytes)
    ensures kept == Whole(c, items, bytes)
  {
    var n := Whole(c, items, bytes);
    WholeByOffset(c, items, bytes, kept);
    WholeByOffset(c, items, bytes, n);
    assert c.Offset(items, kept) <= bytes && c.Offset(items, n) <= bytes;
  }
}
