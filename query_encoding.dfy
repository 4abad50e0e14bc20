/** Query-string encoding of a parameter map, as Go's `url.Values.Encode` does it:
    keys in sorted order, each pair written `key=value` with both sides escaped by
    `url.QueryEscape`, and the pairs joined by `&`. One value per key, because
    `setParam` and `setFormParam` only ever store one. */
module QueryEncoding {
  import opened Values

  type Params = map<string, string>

  /** Character-by-character lexicographic order, which for valid UTF-8 is the
      byte order `sort.Strings` uses. */
  predicate LessEq(a: string, b: string)
    decreases |a|
  {
    |a| == 0 || (|b| > 0 && (a[0] < b[0] || (a[0] == b[0] && LessEq(a[1..], b[1..]))))
  }

  lemma LessEqReflexive(a: string)
    ensures LessEq(a, a)
    decreases |a|
  {
    if |a| > 0 {
      LessEqReflexive(a[1..]);
    }
  }

  lemma LessEqTotal(a: string, b: string)
    ensures LessEq(a, b) || LessEq(b, a)
    decreases |a|
  {
    if |a| > 0 && |b| > 0 && a[0] == b[0] {
      LessEqTotal(a[1..], b[1..]);
    }
  }

  lemma LessEqAntisymmetric(a: string, b: string)
    requires LessEq(a, b) && LessEq(b, a)
    ensures a == b
    decreases |a|
  {
    if |a| > 0 {
      LessEqAntisymmetric(a[1..], b[1..]);
      assert a == [a[0]] + a[1..] && b == [b[0]] + b[1..];
    }
  }

  lemma LessEqTransitive(a: string, b: string, c: string)
    requires LessEq(a, b) && LessEq(b, c)
    ensures LessEq(a, c)
    decreases |a|
  {
    if |a| > 0 && a[0] == b[0] && b[0] == c[0] {
      LessEqTransitive(a[1..], b[1..], c[1..]);
    }
  }

  predicate IsLeast(m: string, s: set<string>) {
    m in s && forall x :: x in s ==> LessEq(m, x)
  }

  lemma LeastExists(s: set<string>)
    requires s != {}
    ensures exists m :: IsLeast(m, s)
    decreases |s|
  {
    var x :| x in s;
    if s != {x} {
      LeastExists(s - {x});
      var m :| IsLeast(m, s - {x});
      LessEqTotal(m, x);
      if LessEq(m, x) {
        assert IsLeast(m, s);
      } else {
        forall y | y in s ensures LessEq(x, y) {
          if y != x {
            LessEqTransitive(x, m, y);
          } else {
            LessEqReflexive(x);
          }
        }
        assert IsLeast(x, s);
      }
    } else {
      LessEqReflexive(x);
      assert IsLeast(x, s);
    }
  }

  lemma LeastUnique(s: set<string>)
    ensures forall a, b :: IsLeast(a, s) && IsLeast(b, s) ==> a == b
  {
    forall a, b | IsLeast(a, s) && IsLeast(b, s) ensures a == b {
      LessEqAntisymmetric(a, b);
    }
  }

  predicate Sorted(keys: seq<string>) {
    forall i, j :: 0 <= i < j < |keys| ==> LessEq(keys[i], keys[j])
  }

  /** The keys of the map in the order `Encode` writes them, each exactly once. */
  function SortedKeys(s: set<string>): (keys: seq<string>)
    ensures |keys| == |s|
    ensures forall i :: 0 <= i < |keys| ==> keys[i] in s
    ensures Sorted(keys)
    decreases |s|
  {
    if s == {} then []
    else
      LeastExists(s);
      LeastUnique(s);
      var m :| IsLeast(m, s);
      [m] + SortedKeys(s - {m})
  }

  /** Every key is listed. */
  lemma {:induction false} SortedKeysComplete(s: set<string>, k: string)
    requires k in s
    ensures k in SortedKeys(s)
    decreases |s|
  {
    var keys := SortedKeys(s);
    if keys[0] != k {
      SortedKeysComplete(s - {keys[0]}, k);
      assert keys == [keys[0]] + SortedKeys(s - {keys[0]});
    }
  }

  /** Characters `QueryEscape` leaves alone. */
  predicate Unreserved(c: char) {
    ('a' <= c <= 'z') || ('A' <= c <= 'Z') || ('0' <= c <= '9') || c == '-' || c == '_' || c == '.' || c == '~'
  }

  const HexDigits := "0123456789ABCDEF"

  /** The UTF-8 encoding of one Unicode scalar value. */
  function Utf8(c: char): (bs: seq<byte>)
    ensures 1 <= |bs| <= 4
  {
    var n := c as int;
    if n < 0x80 then [n as byte]
    else if n < 0x800 then [(0xC0 + n / 0x40) as byte, (0x80 + n % 0x40) as byte]
    else if n < 0x1_0000 then
      [(0xE0 + n / 0x1000) as byte, (0x80 + n / 0x40 % 0x40) as byte, (0x80 + n % 0x40) as byte]
    else
      [(0xF0 + n / 0x4_0000) as byte, (0x80 + n / 0x1000 % 0x40) as byte,
       (0x80 + n / 0x40 % 0x40) as byte, (0x80 + n % 0x40) as byte]
  }

  /** `%XX` for every byte, with upper-case hex digits. */
  function PercentEncode(bs: seq<byte>): string {
    if bs == [] then []
    else ['%', HexDigits[bs[0] as int / 16], HexDigits[bs[0] as int % 16]] + PercentEncode(bs[1..])
  }

  function EscapeChar(c: char): string {
    if Unreserved(c) then [c] else if c == ' ' then "+" else PercentEncode(Utf8(c))
  }

  /** `url.QueryEscape`. */
  function QueryEscape(s: string): string {
    if s == [] then [] else EscapeChar(s[0]) + QueryEscape(s[1..])
  }

  /** Characters an escaped key or value never contains: the separators of the query. */
  predicate Separator(c: char) {
    c == '&' || c == '=' || c == '#' || c == '?'
  }

  lemma {:induction false} PercentEncodeHasNoSeparator(bs: seq<byte>)
    ensures forall k :: 0 <= k < |PercentEncode(bs)| ==> !Separator(PercentEncode(bs)[k])
  {
    if bs != [] {
      PercentEncodeHasNoSeparator(bs[1..]);
    }
  }

  /** An escaped text can be cut at `&` and `=` without ambiguity. */
  lemma {:induction false} QueryEscapeHasNoSeparator(s: string)
    ensures forall k :: 0 <= k < |QueryEscape(s)| ==> !Separator(QueryEscape(s)[k])
  {
    if s != [] {
      PercentEncodeHasNoSeparator(Utf8(s[0]));
      QueryEscapeHasNoSeparator(s[1..]);
    }
  }

  /** Escaping keeps every unreserved character as it is. */
  lemma {:induction false} QueryEscapeKeepsUnreserved(s: string)
    requires forall k :: 0 <= k < |s| ==> Unreserved(s[k])
    ensures QueryEscape(s) == s
  {
    if s != [] {
      QueryEscapeKeepsUnreserved(s[1..]);
    }
  }

  function Pair(q: Params, k: string): string
    requires k in q
  {
    QueryEscape(k) + "=" + QueryEscape(q[k])
  }

  function EncodeKeys(q: Params, keys: seq<string>): (s: string)
    requires forall i :: 0 <= i < |keys| ==> keys[i] in q
    ensures s == "" <==> keys == []
  {
    if keys == [] then ""
    else if |keys| == 1 then Pair(q, keys[0])
    else Pair(q, keys[0]) + "&" + EncodeKeys(q, keys[1..])
  }

  /** `url.Values.Encode`: the empty string exactly for the empty map. */
  function Encode(q: Params): (s: string)
    ensures s == "" <==> |q| == 0
  {
    var keys := SortedKeys(q.Keys);
    assert |q| == |q.Keys|;
    EncodeKeys(q, keys)
  }
}
