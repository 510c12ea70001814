/**
 * `uid`: a 16-byte identity of a component, read as two 8-byte words.
 * Word 0 packs the module (5 bytes) and the author (3 bytes); word 1 packs
 * the type (1 byte) and the name (7 bytes). Equality, ordering and hashing
 * look only at the two words. A word is the base-256 number whose digits
 * are its bytes, the first byte the least significant: one injective
 * encoding of 8 bytes into the numbers below 2^64.
 */
module Uids {

  type Byte = b: nat | b < 256

  type Bytes5 = s: seq<Byte> | |s| == 5 witness [0, 0, 0, 0, 0]
  type Bytes3 = s: seq<Byte> | |s| == 3 witness [0, 0, 0]
  type Bytes7 = s: seq<Byte> | |s| == 7 witness [0, 0, 0, 0, 0, 0, 0]

  /** `uidType`: the kind of component identified. */
  datatype UidType = Module | Event | Widget | Keybind | Color

  /** The byte stored for each `uidType`: `module = 0` up to `color = 4`. */
  function TypeCode(t: UidType): (c: Byte)
    ensures c < 5
  {
    match t
    case Module => 0
    case Event => 1
    case Widget => 2
    case Keybind => 3
    case Color => 4
  }

  /** `uid`; the source's `module` and `type` fields are `moduleId` and `kind` here. */
  datatype Uid = Uid(moduleId: Bytes5, author: Bytes3, kind: UidType, name: Bytes7)

  function Pow256(n: nat): (p: nat)
    ensures p >= 1
  {
    if n == 0 then 1 else 256 * Pow256(n - 1)
  }

  /** The number whose base-256 digits are `bytes`, least significant first. */
  function Encode(bytes: seq<Byte>): (w: nat)
    ensures w < Pow256(|bytes|)
  {
    if bytes == [] then 0 else bytes[0] + 256 * Encode(bytes[1..])
  }

  /** Two byte strings of one length encode alike only when they are equal. */
  lemma {:induction false} EncodeInjective(x: seq<Byte>, y: seq<Byte>)
    requires |x| == |y| && Encode(x) == Encode(y)
    ensures x == y
  {
    if x != [] {
      var a, b := Encode(x[1..]), Encode(y[1..]);
      assert x[0] + 256 * a == y[0] + 256 * b;
      EncodeInjective(x[1..], y[1..]);
      assert x == [x[0]] + x[1..] && y == [y[0]] + y[1..];
    }
  }

  /** 2^64, one more than the largest word. */
  const WordLimit: nat := 0x1_0000_0000_0000_0000

  lemma EightBytesFitAWord()
    ensures Pow256(8) == WordLimit
  {
    assert Pow256(4) == 0x1_0000_0000;
  }

  /** The word of module and author bytes. */
  function Word0(u: Uid): (w: nat)
    ensures w < WordLimit
  {
    EightBytesFitAWord();
    Encode(u.moduleId + u.author)
  }

  /** The word of type and name bytes. */
  function Word1(u: Uid): (w: nat)
    ensures w < WordLimit
  {
    EightBytesFitAWord();
    Encode([TypeCode(u.kind)] + u.name)
  }

  /**
   * Byte-wise order of two byte strings of one length, most significant
   * (last) byte first: at the highest position where they differ, `x` has
   * the smaller byte.
   */
  predicate TopLess(x: seq<Byte>, y: seq<Byte>)
    requires |x| == |y|
  {
    exists k :: 0 <= k < |x| && x[k] < y[k] && x[k + 1..] == y[k + 1..]
  }

  /** One base-256 digit step: the higher digits decide, then the lowest. */
  lemma DigitStepOrder(a: Byte, b: Byte, hi: nat, hj: nat)
    ensures a + 256 * hi < b + 256 * hj <==> hi < hj || (hi == hj && a < b)
  {
    if hi < hj {
      assert 256 * hi + 256 <= 256 * hj;
    } else if hj < hi {
      assert 256 * hj + 256 <= 256 * hi;
    }
  }

  /** Splitting the byte-wise order at the lowest byte. */
  lemma TopLessStep(x: seq<Byte>, y: seq<Byte>)
    requires |x| == |y| > 0
    ensures TopLess(x, y) <==> TopLess(x[1..], y[1..]) || (x[1..] == y[1..] && x[0] < y[0])
  {
    var x', y' := x[1..], y[1..];
    if TopLess(x, y) {
      var k :| 0 <= k < |x| && x[k] < y[k] && x[k + 1..] == y[k + 1..];
      if k > 0 {
        assert x'[k - 1] < y'[k - 1] && x'[k..] == x[k + 1..] && y'[k..] == y[k + 1..];
      }
    }
    if TopLess(x', y') {
      var k :| 0 <= k < |x'| && x'[k] < y'[k] && x'[k + 1..] == y'[k + 1..];
      assert x[k + 1] < y[k + 1] && x[k + 2..] == x'[k + 1..] && y[k + 2..] == y'[k + 1..];
    }
    if x' == y' && x[0] < y[0] {
      assert x[1..] == y[1..];
    }
  }

  /** The numeric order of encodings is the byte-wise order, top byte first. */
  lemma {:induction false} EncodeOrder(x: seq<Byte>, y: seq<Byte>)
    requires |x| == |y|
    ensures Encode(x) < Encode(y) <==> TopLess(x, y)
    decreases |x|
  {
    if x != [] {
      EncodeOrder(x[1..], y[1..]);
      DigitStepOrder(x[0], y[0], Encode(x[1..]), Encode(y[1..]));
      TopLessStep(x, y);
      if Encode(x[1..]) == Encode(y[1..]) {
        EncodeInjective(x[1..], y[1..]);
      }
    }
  }

  /** All-zero bytes encode zero. */
  lemma {:induction false} EncodeZeros(x: seq<Byte>)
    requires forall i :: 0 <= i < |x| ==> x[i] == 0
    ensures Encode(x) == 0
    decreases |x|
  {
    if x != [] {
      EncodeZeros(x[1..]);
    }
  }

  /** The bytes of word 0 and word 1, lowest first. */
  function Bytes0(u: Uid): seq<Byte> { u.moduleId + u.author }
  function Bytes1(u: Uid): seq<Byte> { [TypeCode(u.kind)] + u.name }

  /**
   * `operator<`: the first words decide unless they are equal. This is the
   * byte-wise order of the module/author bytes, then of the type/name
   * bytes, each from its top (last) byte down.
   */
  predicate Less(a: Uid, b: Uid)
    ensures Less(a, b) <==>
      if Bytes0(a) != Bytes0(b) then TopLess(Bytes0(a), Bytes0(b))
      else TopLess(Bytes1(a), Bytes1(b))
  {
    EncodeOrder(Bytes0(a), Bytes0(b));
    EncodeOrder(Bytes1(a), Bytes1(b));
    if Word0(a) == Word0(b) then EncodeInjective(Bytes0(a), Bytes0(b)); Word1(a) < Word1(b)
    else Word0(a) < Word0(b)
  }

  /** `operator==`: both words agree, which is agreement of all fields. */
  predicate Equal(a: Uid, b: Uid)
    ensures Equal(a, b) <==> a == b
  {
    if Word0(a) == Word0(b) && Word1(a) == Word1(b) then WordsDetermineFields(a, b); true
    else false
  }

  /** `hasType`: the stored type byte is `expected`'s code. */
  predicate HasType(u: Uid, expected: UidType)
    ensures HasType(u, expected) <==> TypeCode(u.kind) == TypeCode(expected)
  {
    u.kind == expected
  }

  /** `null(type)`: all module, author and name bytes zero. */
  function Null(t: UidType): (u: Uid)
    ensures HasType(u, t) && Word0(u) == 0
    ensures forall i :: 0 <= i < 7 ==> u.name[i] == 0
  {
    EncodeZeros([0, 0, 0, 0, 0] + [0, 0, 0]);
    Uid([0, 0, 0, 0, 0], [0, 0, 0], t, [0, 0, 0, 0, 0, 0, 0])
  }

  /** `std::hash<uid>`: the exclusive or of the two words. */
  function Hash(u: Uid): (h: bv64)
    ensures h ^ AsBits(Word0(u)) == AsBits(Word1(u))
    ensures h ^ AsBits(Word1(u)) == AsBits(Word0(u))
  {
    AsBits(Word0(u)) ^ AsBits(Word1(u))
  }

  /** A word as the 64-bit pattern it is stored as. */
  function AsBits(w: nat): bv64
    requires w < WordLimit
  {
    w as bv64
  }

  // ---------------------------------------------------------------------

  /** The words determine the fields, and the fields the words. */
  lemma WordsDetermineFields(a: Uid, b: Uid)
    requires Word0(a) == Word0(b) && Word1(a) == Word1(b)
    ensures a == b
  {
    EncodeInjective(a.moduleId + a.author, b.moduleId + b.author);
    assert a.moduleId == (a.moduleId + a.author)[..5];
    assert b.moduleId == (b.moduleId + b.author)[..5];
    assert a.author == (a.moduleId + a.author)[5..];
    assert b.author == (b.moduleId + b.author)[5..];
    EncodeInjective([TypeCode(a.kind)] + a.name, [TypeCode(b.kind)] + b.name);
    assert TypeCode(a.kind) == ([TypeCode(a.kind)] + a.name)[0];
    assert a.name == ([TypeCode(a.kind)] + a.name)[1..];
    assert b.name == ([TypeCode(b.kind)] + b.name)[1..];
  }

  lemma LessIrreflexive(a: Uid)
    ensures !Less(a, a)
  {
  }

  lemma LessTransitive(a: Uid, b: Uid, c: Uid)
    requires Less(a, b) && Less(b, c)
    ensures Less(a, c)
  {
  }

  /** Exactly one of `a < b`, `b < a` and `a == b` holds. */
  lemma LessTrichotomous(a: Uid, b: Uid)
    ensures Less(a, b) || Less(b, a) || a == b
    ensures !(Less(a, b) && Less(b, a))
    ensures Less(a, b) || Less(b, a) ==> a != b
  {
    if Word0(a) == Word0(b) && Word1(a) == Word1(b) {
      WordsDetermineFields(a, b);
    }
  }

  /**
   * Under one module and author, a difference in the name decides the
   * order before the type does: the type byte is word 1's lowest byte.
   */
  lemma NameDecidesBeforeType(a: Uid, b: Uid)
    requires a.moduleId == b.moduleId && a.author == b.author && a.name != b.name
    ensures Less(a, b) <==> TopLess(a.name, b.name)
  {
    TopLessStep(Bytes1(a), Bytes1(b));
    assert Bytes1(a)[1..] == a.name && Bytes1(b)[1..] == b.name;
  }

  /** Under one module, author and name, the type codes decide the order. */
  lemma TypeDecidesLast(a: Uid, b: Uid)
    requires a.moduleId == b.moduleId && a.author == b.author && a.name == b.name
    ensures Less(a, b) <==> TypeCode(a.kind) < TypeCode(b.kind)
  {
    TopLessStep(Bytes1(a), Bytes1(b));
    assert Bytes1(a)[1..] == a.name && Bytes1(b)[1..] == b.name;
    assert !TopLess(a.name, b.name);
  }

  /** A color uid with a zero name sorts before a module uid whose top name byte is set. */
  lemma NameOutranksType()
    ensures Less(Uid([0, 0, 0, 0, 0], [0, 0, 0], Color, [0, 0, 0, 0, 0, 0, 0]),
                 Uid([0, 0, 0, 0, 0], [0, 0, 0], Module, [0, 0, 0, 0, 0, 0, 1]))
  {
    var a := Uid([0, 0, 0, 0, 0], [0, 0, 0], Color, [0, 0, 0, 0, 0, 0, 0]);
    var b := Uid([0, 0, 0, 0, 0], [0, 0, 0], Module, [0, 0, 0, 0, 0, 0, 1]);
    NameDecidesBeforeType(a, b);
    assert a.name[6] < b.name[6] && a.name[7..] == b.name[7..];
  }

  /** Equal uids hash alike. */
  lemma EqualHashesEqual(a: Uid, b: Uid)
    requires Equal(a, b)
    ensures Hash(a) == Hash(b)
  {
  }

  /** `null(t)` has zero module, author and name bytes and the type `t`. */
  lemma NullIsZeroOfType(t: UidType)
    ensures HasType(Null(t), t)
    ensures forall i :: 0 <= i < 5 ==> Null(t).moduleId[i] == 0
    ensures forall i :: 0 <= i < 3 ==> Null(t).author[i] == 0
    ensures forall i :: 0 <= i < 7 ==> Null(t).name[i] == 0
  {
  }

  /** Two null uids are equal exactly when their types are. */
  lemma NullEqualIffSameType(t: UidType, t': UidType)
    ensures Equal(Null(t), Null(t')) <==> t == t'
  {
  }

  /** `null(t)` differs from every uid of type `t` whose name is not all zero. */
  lemma NullDiffersFromNamed(u: Uid)
    requires exists i :: 0 <= i < 7 && u.name[i] != 0
    ensures !Equal(Null(u.kind), u)
  {
  }

  /** The five types have five distinct codes. */
  lemma TypeCodesDistinct(t: UidType)
    ensures forall t': UidType :: TypeCode(t') == TypeCode(t) ==> t' == t
  {
  }
}
