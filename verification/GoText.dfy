/** Go strings as far as length limits and JSON can tell them apart: characters in UTF-8, and
    stray bytes that belong to none. A limit counts bytes, so it can cut a character in two.
    A text is taken to split its bytes as Go does, so that no run of strays in it spells a
    character; cutting, trimming and storing such a text gives such a text. */
module GoText {

  datatype Unit = Rune(c: char) | Stray(b: int)

  type Text = seq<Unit>

  const REPLACEMENT: char := '\U{FFFD}'

  function Utf8(c: char): (bytes: seq<int>)
    ensures 1 <= |bytes| <= 4
  {
    var n := c as int;
    if n < 0x80 then [n]
    else if n < 0x800 then [0xC0 + n / 64, 0x80 + n % 64]
    else if n < 0x1_0000 then [0xE0 + n / 4096, 0x80 + n / 64 % 64, 0x80 + n % 64]
    else [0xF0 + n / 262144, 0x80 + n / 4096 % 64, 0x80 + n / 64 % 64, 0x80 + n % 64]
  }

  function UnitBytes(u: Unit): (bytes: seq<int>)
    ensures 1 <= |bytes| <= 4
  {
    match u case Rune(c) => Utf8(c) case Stray(b) => [b]
  }

  function Bytes(t: Text): seq<int> {
    if t == [] then [] else UnitBytes(t[0]) + Bytes(t[1..])
  }

  /** Bytes that are no longer, or not yet, part of a character. */
  function Strays(bytes: seq<int>): (t: Text)
    ensures |t| == |bytes|
  {
    seq(|bytes|, i requires 0 <= i < |bytes| => Stray(bytes[i]))
  }

  /** t[:n] in Go: a character that does not fit leaves its first bytes behind as strays. */
  function Cut(t: Text, n: nat): Text {
    if t == [] then []
    else
      var bytes := UnitBytes(t[0]);
      if |bytes| <= n then [t[0]] + Cut(t[1..], n - |bytes|) else Strays(bytes[..n])
  }

  /** What writing to JSON and reading back does: each stray byte becomes U+FFFD. */
  function Json(t: Text): Text {
    if t == [] then [] else [if t[0].Stray? then Rune(REPLACEMENT) else t[0]] + Json(t[1..])
  }

  predicate Whole(t: Text) {
    forall i | 0 <= i < |t| :: t[i].Rune?
  }

  predicate Ascii(t: Text) {
    forall i | 0 <= i < |t| :: t[i].Rune? && t[i].c as int < 0x80
  }

  /** unicode.IsSpace */
  predicate IsSpace(c: char) {
    var n := c as int;
    || 9 <= n <= 13 || n in {0x20, 0x85, 0xA0, 0x1680, 0x2028, 0x2029, 0x202F, 0x205F, 0x3000} || 0x2000 <= n <= 0x200A
  }

  /** strings.TrimSpace leaves nothing. */
  predicate Blank(t: Text) {
    forall i | 0 <= i < |t| :: t[i].Rune? && IsSpace(t[i].c)
  }

  // ---- Trimming ----

  predicate IsSpaceUnit(u: Unit) {
    u.Rune? && IsSpace(u.c)
  }

  function TrimLeft(t: Text): Text {
    if t != [] && IsSpaceUnit(t[0]) then TrimLeft(t[1..]) else t
  }

  function TrimRight(t: Text): Text {
    if t != [] && IsSpaceUnit(t[|t| - 1]) then TrimRight(t[..|t| - 1]) else t
  }

  /** strings.TrimSpace */
  function TrimSpace(t: Text): Text {
    TrimRight(TrimLeft(t))
  }

  lemma {:induction false} TrimLeftStarts(t: Text)
    ensures TrimLeft(t) != [] ==> !IsSpaceUnit(TrimLeft(t)[0])
  {
    if t != [] && IsSpaceUnit(t[0]) {
      TrimLeftStarts(t[1..]);
    }
  }

  /** What trimming at the end leaves is a prefix; a text that starts with something stays. */
  lemma {:induction false} TrimRightIsPrefix(t: Text)
    ensures TrimRight(t) <= t
    ensures t != [] && IsSpaceUnit(t[|t| - 1]) ==> |TrimRight(t)| < |t|
    ensures t != [] && !IsSpaceUnit(t[0]) ==> TrimRight(t) != []
    decreases |t|
  {
    if t != [] && IsSpaceUnit(t[|t| - 1]) {
      TrimRightIsPrefix(t[..|t| - 1]);
      assert |t| > 1 ==> t[..|t| - 1][0] == t[0];
    }
  }

  lemma {:induction false} BytesAppend(t: Text, u: Text)
    ensures Bytes(t + u) == Bytes(t) + Bytes(u)
  {
    if t == [] {
      assert t + u == u;
    } else {
      assert (t + u)[1..] == t[1..] + u;
      BytesAppend(t[1..], u);
    }
  }

  lemma PrefixFits(t: Text, u: Text, n: nat)
    requires t <= u && |Bytes(u)| <= n
    ensures Cut(t, n) == t
  {
    BytesAppend(t, u[|t|..]);
    assert t + u[|t|..] == u;
    CutFits(t, n);
  }

  // ---- Cutting ----

  lemma {:induction false} StraysBytes(bytes: seq<int>)
    ensures Bytes(Strays(bytes)) == bytes
  {
    if bytes != [] {
      assert Strays(bytes)[1..] == Strays(bytes[1..]);
      StraysBytes(bytes[1..]);
    }
  }

  /** Cutting is what Go's slicing does to the bytes. */
  lemma {:induction false} CutIsPrefix(t: Text, n: nat)
    ensures Bytes(Cut(t, n)) == if n <= |Bytes(t)| then Bytes(t)[..n] else Bytes(t)
  {
    hide UnitBytes, Strays;
    if t != [] {
      var bytes := UnitBytes(t[0]);
      if |bytes| <= n {
        CutIsPrefix(t[1..], n - |bytes|);
        BytesCons(t[0], Cut(t[1..], n - |bytes|));
        PrefixOfSum(bytes, Bytes(t[1..]), n);
      } else {
        StraysBytes(bytes[..n]);
        PrefixOfSum(bytes, Bytes(t[1..]), n);
      }
    }
  }

  lemma BytesCons(u: Unit, t: Text)
    ensures Bytes([u] + t) == UnitBytes(u) + Bytes(t)
  {
    assert ([u] + t)[1..] == t;
  }

  lemma PrefixOfSum(a: seq<int>, b: seq<int>, n: nat)
    ensures |a| <= n <= |a + b| ==> (a + b)[..n] == a + b[..n - |a|]
    ensures n < |a| ==> (a + b)[..n] == a[..n]
  {
  }

  lemma {:induction false} CutFits(t: Text, n: nat)
    requires |Bytes(t)| <= n
    ensures Cut(t, n) == t
  {
    if t != [] {
      CutFits(t[1..], n - |UnitBytes(t[0])|);
    }
  }

  lemma {:induction false} CutAfter(p: Text, q: Text, n: nat)
    requires |Bytes(p)| <= n
    ensures Cut(p + q, n) == p + Cut(q, n - |Bytes(p)|)
  {
    hide UnitBytes, Strays;
    if p == [] {
      assert p + q == q;
    } else {
      assert (p + q)[1..] == p[1..] + q;
      CutAfter(p[1..], q, n - |UnitBytes(p[0])|);
      assert [p[0]] + (p[1..] + Cut(q, n - |Bytes(p)|)) == p + Cut(q, n - |Bytes(p)|);
    }
  }

  lemma {:induction false} CutAscii(t: Text, n: nat)
    requires Ascii(t)
    ensures Ascii(Cut(t, n))
  {
    if t != [] && n > 0 {
      CutAscii(t[1..], n - 1);
    }
  }

  lemma {:induction false} Letters(n: nat)
    ensures |Bytes(seq(n, _ => Rune('a')))| == n && Whole(seq(n, _ => Rune('a')))
  {
    if n > 0 {
      Letters(n - 1);
      var t: Text := seq(n, _ => Rune('a'));
      assert t[1..] == seq(n - 1, _ => Rune('a'));
    }
  }

  // ---- JSON ----

  lemma {:induction false} JsonAfter(p: Text, q: Text)
    ensures Json(p + q) == Json(p) + Json(q)
  {
    if p == [] {
      assert p + q == q;
    } else {
      assert (p + q)[1..] == p[1..] + q;
      JsonAfter(p[1..], q);
    }
  }

  lemma {:induction false} JsonFacts(t: Text)
    ensures Whole(Json(t)) && |Json(t)| == |t|
    ensures Whole(t) ==> Json(t) == t
    ensures Blank(Json(t)) <==> Blank(t)
  {
    if t != [] {
      JsonFacts(t[1..]);
      var r := Json(t);
      assert r[1..] == Json(t[1..]);
      assert t == [t[0]] + t[1..] && r == [r[0]] + r[1..];
      assert !IsSpace(REPLACEMENT);
      assert Blank(t) <==> Blank([t[0]]) && Blank(t[1..]);
      assert Blank(r) <==> Blank([r[0]]) && Blank(r[1..]);
    }
  }

  /** What is left of U+FFFD when only k of its three bytes fit. */
  function Leftover(k: nat): Text
    requires k <= 2
  {
    Strays([0xEF, 0xBF][..k])
  }

  /** t ends in one or two stray bytes at byte n, the ones that U+FFFD would leave there, and
      has no other. */
  predicate EndsInLeftover(t: Text, n: nat, k: nat) {
    1 <= k <= 2 && k <= |t| && |Bytes(t)| == n && Whole(Front(t, k)) && Back(t, k) == Leftover(k)
  }

  /** All but the last k units, and the last k. */
  function Front(t: Text, k: nat): Text
    requires k <= |t|
  {
    t[..|t| - k]
  }

  function Back(t: Text, k: nat): Text
    requires k <= |t|
  {
    t[|t| - k..]
  }

  /** Nothing of t changes when it is stored and cut to n bytes again. */
  predicate Intact(t: Text, n: nat) {
    Whole(t) || EndsInLeftover(t, n, 1) || EndsInLeftover(t, n, 2)
  }

  /** The same, told from the front. */
  predicate IntactFrom(t: Text, n: nat) {
    if t == [] then true
    else if t[0].Stray? then 1 <= n <= 2 && t == Leftover(n)
    else |Utf8(t[0].c)| <= n && IntactFrom(t[1..], n - |Utf8(t[0].c)|)
  }

  /** Cutting, storing and cutting again gives a text of at most n bytes back exactly if it is
      intact. */
  lemma {:induction false} RecutIff(t: Text, n: nat)
    requires |Bytes(t)| <= n
    ensures Cut(Json(t), n) == t <==> IntactFrom(t, n)
  {
    hide Utf8, Strays;
    if t != [] {
      var r := Json(t);
      assert r[1..] == Json(t[1..]);
      if t[0].Stray? {
        RecutStray(t, n);
      } else {
        RecutIff(t[1..], n - |Utf8(t[0].c)|);
        var cut := Cut(r[1..], n - |Utf8(t[0].c)|);
        assert Cut(r, n) == [t[0]] + cut;
        assert ([t[0]] + cut == t) <==> cut == t[1..];
      }
    }
  }

  lemma RecutStray(t: Text, n: nat)
    requires t != [] && t[0].Stray? && |Bytes(t)| <= n
    ensures Cut(Json(t), n) == t <==> IntactFrom(t, n)
  {
    var bytes := UnitBytes(Rune(REPLACEMENT));
    assert bytes == [0xEF, 0xBF, 0xBD];
    assert n < 3 ==> bytes[..n] == [0xEF, 0xBF][..n];
    hide Bytes, Utf8, UnitBytes;
  }

  lemma {:induction false} IntactIff(t: Text, n: nat)
    requires |Bytes(t)| <= n
    ensures Intact(t, n) <==> IntactFrom(t, n)
  {
    hide Bytes, Utf8, EndsInLeftover;
    if t == [] {
      assert Whole(t);
    } else if t[0].Stray? {
      IntactStray(t, n);
    } else {
      FirstUnit(t);
      IntactIff(t[1..], n - |Utf8(t[0].c)|);
      IntactTail(t, n, 1);
      IntactTail(t, n, 2);
      assert Whole(t) <==> Whole(t[1..]) by { assert t == [t[0]] + t[1..]; WholeCons(t[0], t[1..]); }
    }
  }

  lemma FirstUnit(t: Text)
    requires t != []
    ensures |Bytes(t)| == |UnitBytes(t[0])| + |Bytes(t[1..])|
  {
  }

  lemma IntactStray(t: Text, n: nat)
    requires t != [] && t[0].Stray? && |Bytes(t)| <= n
    ensures Intact(t, n) <==> IntactFrom(t, n)
  {
    LeftoverBytes();
    assert 1 < |t| ==> t[..|t| - 1][0] == t[0];
    assert 2 < |t| ==> t[..|t| - 2][0] == t[0];
    assert t[|t| - |t|..] == t;
  }

  lemma LeftoverBytes()
    ensures Bytes(Leftover(1)) == [0xEF] && Bytes(Leftover(2)) == [0xEF, 0xBF]
    ensures |Leftover(1)| == 1 && |Leftover(2)| == 2 && Leftover(1)[0].Stray? && Leftover(2)[0].Stray?
  {
    StraysBytes([0xEF, 0xBF][..1]);
    StraysBytes([0xEF, 0xBF][..2]);
  }

  lemma IntactTail(t: Text, n: nat, k: nat)
    requires t != [] && t[0].Rune? && |Bytes(t)| <= n && 1 <= k <= 2
    ensures EndsInLeftover(t, n, k) <==> EndsInLeftover(t[1..], n - |Utf8(t[0].c)|, k)
  {
    assert |Bytes(t)| == |Utf8(t[0].c)| + |Bytes(t[1..])|;
    hide Bytes, Utf8, Leftover, Whole, Front, Back;
    if k < |t| {
      SameTail(t, k);
      WholeCons(t[0], Front(t[1..], k));
    } else if k == |t| {
      LeftoverBytes();
      AllBack(t);
    }
  }

  lemma AllBack(t: Text)
    ensures Back(t, |t|) == t
  {
  }

  lemma SameTail(t: Text, k: nat)
    requires k < |t|
    ensures Back(t, k) == Back(t[1..], k) && Front(t, k) == [t[0]] + Front(t[1..], k)
  {
  }

  lemma WholeCons(u: Unit, t: Text)
    requires u.Rune?
    ensures Whole([u] + t) <==> Whole(t)
  {
    assert ([u] + t)[1..] == t;
    assert forall i | 0 <= i < |t| :: ([u] + t)[i + 1] == t[i];
  }
}
