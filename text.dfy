/** The string helpers the shell relies on: Go's strings.Fields, strings.Join and `%6d` padding. */
module Text {

  /** unicode.IsSpace: the characters strings.Fields splits on. */
  predicate IsSpace(c: char): (b: bool)
    ensures c as int < 0x80 ==> (b <==> c == ' ' || c == '\t' || c == '\n' || c == '\r' || c as int == 0x0B || c as int == 0x0C)
    ensures b ==> c as int <= 0x3000
  {
    var n := c as int;
    || n == 0x20 || 0x09 <= n <= 0x0D || n == 0x85 || n == 0xA0 || n == 0x1680
    || 0x2000 <= n <= 0x200A || n == 0x2028 || n == 0x2029 || n == 0x202F
    || n == 0x205F || n == 0x3000
  }

  predicate IsBlank(s: string)
  {
    forall i :: 0 <= i < |s| ==> IsSpace(s[i])
  }

  predicate NoSpace(s: string)
  {
    forall i :: 0 <= i < |s| ==> !IsSpace(s[i])
  }

  /** A field as strings.Fields returns it: nonempty and without whitespace. */
  predicate IsField(s: string)
  {
    s != [] && NoSpace(s)
  }

  /** Length of the run of non-space characters at the front of `s`. */
  function TokenLength(s: string): (n: nat)
    ensures n <= |s|
    ensures NoSpace(s[..n])
    ensures n < |s| ==> IsSpace(s[n])
  {
    if s == [] || IsSpace(s[0]) then 0
    else
      var m := TokenLength(s[1..]);
      assert s[..1 + m] == [s[0]] + s[1..][..m];
      1 + m
  }

  /** strings.Fields: the maximal runs of non-space characters, in order. */
  function Fields(s: string): (r: seq<string>)
    ensures forall k :: 0 <= k < |r| ==> IsField(r[k])
    decreases |s|
  {
    if s == [] then []
    else if IsSpace(s[0]) then Fields(s[1..])
    else
      var n := TokenLength(s);
      [s[..n]] + Fields(s[n..])
  }

  /** The non-space characters of `s`, in order. */
  function NonSpace(s: string): string
  {
    if s == [] then [] else (if IsSpace(s[0]) then [] else [s[0]]) + NonSpace(s[1..])
  }

  function Concat(ss: seq<string>): string
  {
    if ss == [] then [] else ss[0] + Concat(ss[1..])
  }

  /** strings.Join: the elements in order, with one `sep` between each two of them. */
  function Join(ss: seq<string>, sep: string): (r: string)
    ensures |r| == |Concat(ss)| + (if ss == [] then 0 else (|ss| - 1) * |sep|)
    ensures ss != [] ==> ss[0] <= r
    ensures |ss| > 1 ==> r[|ss[0]|..|ss[0]| + |sep|] == sep
  {
    if ss == [] then []
    else if |ss| == 1 then ss[0]
    else ss[0] + sep + Join(ss[1..], sep)
  }

  function Spaces(n: nat): (r: string)
    ensures |r| == n && IsBlank(r)
  {
    seq(n, i => ' ')
  }

  /** Right-aligns `s` in a field of `width` characters, as `%6d` does for width 6. */
  function PadLeft(s: string, width: nat): (r: string)
    ensures |r| == if |s| < width then width else |s|
    ensures r[|r| - |s|..] == s
  {
    if |s| < width then Spaces(width - |s|) + s else s
  }

  /** PadLeft keeps `s` at the right end and fills the rest of the field with blanks. */
  lemma PadLeftShape(s: string, width: nat)
    ensures var r := PadLeft(s, width);
            && |r| == (if |s| < width then width else |s|)
            && r[|r| - |s|..] == s
            && IsBlank(r[..|r| - |s|])
  {
    var r := PadLeft(s, width);
    assert r[..|r| - |s|] == if |s| < width then Spaces(width - |s|) else [];
  }

  /** strings.Fields returns no field exactly when the line is all whitespace. */
  lemma {:induction false} FieldsEmptyIffBlank(s: string)
    ensures Fields(s) == [] <==> IsBlank(s)
    decreases |s|
  {
    if s != [] && IsSpace(s[0]) {
      FieldsEmptyIffBlank(s[1..]);
      assert IsBlank(s) <==> IsBlank(s[1..]) by {
        assert forall i :: 0 < i < |s| ==> s[i] == s[1..][i - 1];
      }
    }
  }

  lemma {:induction false} NonSpaceAppend(a: string, b: string)
    ensures NonSpace(a + b) == NonSpace(a) + NonSpace(b)
    decreases |a|
  {
    if a != [] {
      assert (a + b)[1..] == a[1..] + b;
      NonSpaceAppend(a[1..], b);
    } else {
      assert a + b == b;
    }
  }

  lemma {:induction false} NonSpaceOfField(s: string)
    requires NoSpace(s)
    ensures NonSpace(s) == s
    decreases |s|
  {
    if s != [] {
      NonSpaceOfField(s[1..]);
    }
  }

  /** The fields hold every non-space character of the line, in order, and nothing else. */
  lemma {:induction false} FieldsKeepText(s: string)
    ensures Concat(Fields(s)) == NonSpace(s)
    decreases |s|
  {
    if s == [] {
    } else if IsSpace(s[0]) {
      FieldsKeepText(s[1..]);
    } else {
      var n := TokenLength(s);
      FieldsKeepText(s[n..]);
      assert s == s[..n] + s[n..];
      NonSpaceAppend(s[..n], s[n..]);
      NonSpaceOfField(s[..n]);
      var r := [s[..n]] + Fields(s[n..]);
      assert r[1..] == Fields(s[n..]);
    }
  }

  /** Splitting a space-joined list of fields gives the list back (what echo prints re-reads as its arguments). */
  lemma {:induction false} FieldsOfJoin(ts: seq<string>)
    requires forall k :: 0 <= k < |ts| ==> IsField(ts[k])
    ensures Fields(Join(ts, " ")) == ts
    decreases |ts|
  {
    if |ts| == 1 {
      FieldsOfField(ts[0], "");
      assert ts[0] + "" == ts[0];
    } else if |ts| > 1 {
      var rest := Join(ts[1..], " ");
      FieldsOfJoin(ts[1..]);
      assert ts[0] + " " + rest == ts[0] + (" " + rest);
      FieldsOfField(ts[0], " " + rest);
      assert (" " + rest)[1..] == rest;
    }
  }

  /** A field followed by text that is empty or starts with a space is split off whole. */
  lemma FieldsOfField(t: string, tail: string)
    requires IsField(t)
    requires tail == [] || IsSpace(tail[0])
    ensures Fields(t + tail) == [t] + Fields(tail)
  {
    var s := t + tail;
    TokenLengthOfField(t, tail);
    assert s[..|t|] == t && s[|t|..] == tail;
  }

  lemma {:induction false} TokenLengthOfField(t: string, tail: string)
    requires NoSpace(t)
    requires tail == [] || IsSpace(tail[0])
    ensures TokenLength(t + tail) == |t|
    decreases |t|
  {
    if t != [] {
      assert (t + tail)[1..] == t[1..] + tail;
      TokenLengthOfField(t[1..], tail);
    } else {
      assert t + tail == tail;
    }
  }
}
