/** Structural services derived from the ordered property list: the generated
    hash combination and the `Type{name=value, ...}` rendering. */
module BeanServices {
  import opened JavaInt
  import opened LegProperties

  //-------------------------------------------------------------------------
  // Hashing

  /** The hash after folding `hs`, in order, into `seed` one generated step at
      a time: `hash += hash * 31 + h` in Java `int`s. */
  function HashFold(seed: int32, hs: seq<int32>): int32
    decreases |hs|
  {
    if hs == [] then seed else HashFold(Add(seed, Add(Mul(seed, 31), hs[0])), hs[1..])
  }

  /** The same combination over unbounded integers: Horner's rule in base 32. */
  function Horner(acc: int, hs: seq<int32>): int
    decreases |hs|
  {
    if hs == [] then acc else Horner(acc * 32 + hs[0], hs[1..])
  }

  /** The folded hash is the base-32 polynomial of the seed and the field
      hashes, reduced into Java's `int` range. */
  lemma {:induction false} HashFoldIsPolynomial(acc: int, hs: seq<int32>)
    ensures HashFold(Wrap(acc), hs) == Wrap(Horner(acc, hs))
    decreases |hs|
  {
    if hs != [] {
      var w := Wrap(acc);
      var wi: int := w;
      HashStep(w, hs[0]);
      assert Wrap(wi * 32 + hs[0]) == Wrap(acc * 32 + hs[0]) by {
        WrapAbsorbsFactor(acc, 32);
        WrapAbsorbs(hs[0], wi * 32);
        WrapAbsorbs(hs[0], acc * 32);
      }
      HashFoldIsPolynomial(acc * 32 + hs[0], hs[1..]);
    }
  }

  /** Three field hashes: `seed * 32^3 + h1 * 32^2 + h2 * 32 + h3` modulo 2^32. */
  lemma {:induction false} HashFoldOfThree(seed: int32, h1: int32, h2: int32, h3: int32)
    ensures HashFold(seed, [h1, h2, h3]) == Wrap(seed * 32768 + h1 * 1024 + h2 * 32 + h3)
  {
    var s: int := seed;
    HashFoldIsPolynomial(s, [h1, h2, h3]);
    assert [h1, h2, h3][1..] == [h2, h3];
    assert [h2, h3][1..] == [h3];
    var a1 := s * 32 + h1;
    var a2 := a1 * 32 + h2;
    var a3 := a2 * 32 + h3;
    assert Horner(a2, [h3]) == a3 by { assert [h3][1..] == []; }
    assert Horner(a1, [h2, h3]) == a3;
    assert Horner(s, [h1, h2, h3]) == a3;
    assert a3 == s * 32768 + h1 * 1024 + h2 * 32 + h3;
  }

  /** The combination is order-sensitive: exchanging the first two of three
      field hashes changes the result whenever they differ by less than 2^21. */
  lemma {:induction false} HashFoldIsOrderSensitive(seed: int32, h1: int32, h2: int32, h3: int32)
    requires h1 != h2 && -0x20_0000 < h1 - h2 < 0x20_0000
    ensures HashFold(seed, [h1, h2, h3]) != HashFold(seed, [h2, h1, h3])
  {
    HashFoldOfThree(seed, h1, h2, h3);
    HashFoldOfThree(seed, h2, h1, h3);
    var s: int := seed;
    var u := s * 32768 + h1 * 1024 + h2 * 32 + h3;
    var v := s * 32768 + h2 * 1024 + h1 * 32 + h3;
    var d := h1 - h2;
    assert u - v == d * 992;
    assert -0x8000_0000 < d * 992 < 0x8000_0000;
    WrapSeparates(u, v);
  }

  //-------------------------------------------------------------------------
  // Rendering

  /** `name=text` pairs joined by ", ". */
  function Joined(entries: seq<(string, string)>): string
    decreases |entries|
  {
    if entries == [] then ""
    else if |entries| == 1 then entries[0].0 + "=" + entries[0].1
    else entries[0].0 + "=" + entries[0].1 + ", " + Joined(entries[1..])
  }

  /** A rendering: the prefix, the joined entries and a closing brace. */
  function Layout(prefix: string, entries: seq<(string, string)>): string {
    prefix + Joined(entries) + "}"
  }

  /** The declared property names paired, in order, with the given texts. */
  function Entries(texts: seq<string>): seq<(string, string)>
    requires |texts| == |Declared|
  {
    [(Name(Declared[0]), texts[0]), (Name(Declared[1]), texts[1]), (Name(Declared[2]), texts[2])]
  }

  /** The rendering of the three declared properties, written out. */
  lemma {:induction false} LayoutOfDeclared(prefix: string, a: string, b: string, c: string)
    ensures Layout(prefix, Entries([a, b, c]))
         == prefix + "accrualPeriods=" + a + ", paymentPeriods=" + b + ", calculation=" + c + "}"
  {
    var es := Entries([a, b, c]);
    assert es[1..][1..] == [("calculation", c)];
    assert Joined(es[1..][1..]) == "calculation=" + c;
    assert Joined(es[1..]) == "paymentPeriods=" + b + ", " + "calculation=" + c;
  }

  /** What one generated `append` chain adds for a property that is followed
      by another: the name, '=', the text, ',' and ' '. */
  lemma {:induction false} AppendedEntry(name: string, text: string)
    ensures name + ['='] + text + [','] + [' '] == name + "=" + text + ", "
  {
    assert [','] + [' '] == ", ";
  }

  /** The pieces the generated `toString` methods append, one `append` call
      each, make up the layout of the three declared properties. */
  lemma {:induction false} AppendedLayout(prefix: string, a: string, b: string, c: string)
    ensures prefix + "accrualPeriods" + ['='] + a + [','] + [' ']
                   + "paymentPeriods" + ['='] + b + [','] + [' ']
                   + "calculation" + ['='] + c + ['}']
         == Layout(prefix, Entries([a, b, c]))
  {
    var es := Entries([a, b, c]);
    var p1 := "accrualPeriods" + ['='] + a + [','] + [' '];
    var p2 := "paymentPeriods" + ['='] + b + [','] + [' '];
    var p3 := "calculation" + ['='] + c;
    AppendedEntry("accrualPeriods", a);
    AppendedEntry("paymentPeriods", b);
    assert es[1..][1..] == [("calculation", c)];
    assert Joined(es[1..][1..]) == p3;
    assert Joined(es[1..]) == p2 + p3;
    assert Joined(es) == p1 + (p2 + p3);
    assert prefix + "accrualPeriods" + ['='] + a + [','] + [' '] == prefix + p1;
    assert prefix + p1 + "paymentPeriods" + ['='] + b + [','] + [' '] == prefix + p1 + p2;
    assert prefix + p1 + p2 + "calculation" + ['='] + c == prefix + p1 + p2 + p3;
    assert prefix + p1 + p2 + p3 == prefix + (p1 + (p2 + p3));
  }
}
