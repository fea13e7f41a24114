/**
 * The request signature of the logistics gateway: every field becomes its
 * name immediately followed by its value, the pieces are sorted in
 * code-unit order and joined with no delimiter, the secret is put on both
 * sides, and the MD5 hex digest of that string is upper-cased.
 *
 * MD5 itself is a parameter: any function from strings to 32 lowercase hex
 * digits.
 */
module Signer {
  import opened JsText
  import opened JsObjects
  import opened Sorting

  /** One field's piece: its name immediately followed by its value's string form. */
  function Piece(e: Entry): JsString
  {
    e.key + ToStr(e.value)
  }

  /** The pieces of every field, in enumeration order. */
  function Pieces(data: Object): seq<JsString>
  {
    seq(|data|, i requires 0 <= i < |data| => Piece(data[i]))
  }

  /** `Array.prototype.join('')`. */
  function Concat(xs: seq<JsString>): JsString
  {
    if xs == [] then [] else xs[0] + Concat(xs[1..])
  }

  /** The string that is hashed. */
  function PreHash(secret: Value, data: Object): JsString
  {
    ToStr(secret) + Concat(Sort(Pieces(data))) + ToStr(secret)
  }

  /** The signature: the upper-cased MD5 hex digest of the pre-hash string. */
  function Signature(secret: Value, data: Object, md5: JsString -> Md5Hex): JsString
  {
    ToUpper(md5(PreHash(secret, data)))
  }

  /** The total length of every field name and value string. */
  function FieldsLength(data: Object): nat
  {
    if data == [] then 0 else |data[0].key| + |ToStr(data[0].value)| + FieldsLength(data[1..])
  }

  // ---------------------------------------------------------------------------
  // Permutations
  // ---------------------------------------------------------------------------

  lemma SplitAt<T>(s: seq<T>, j: nat)
    requires j < |s|
    ensures s == s[..j] + [s[j]] + s[j + 1..]
    ensures multiset(s) == multiset(s[..j] + s[j + 1..]) + multiset{s[j]}
  {
    assert s == s[..j] + [s[j]] + s[j + 1..];
  }

  lemma PiecesAppend(a: Object, b: Object)
    ensures Pieces(a + b) == Pieces(a) + Pieces(b)
  {
  }

  /** Taking out the field at `j` takes its piece out of the pieces. */
  lemma PiecesRemove(b: Object, j: nat)
    requires j < |b|
    ensures multiset(Pieces(b)) == multiset(Pieces(b[..j] + b[j + 1..])) + multiset{Piece(b[j])}
  {
    var p := Pieces(b);
    SplitAt(p, j);
    assert p[..j] == Pieces(b[..j]);
    assert p[j + 1..] == Pieces(b[j + 1..]);
    PiecesAppend(b[..j], b[j + 1..]);
  }

  lemma PiecesTail(a: Object)
    requires a != []
    ensures multiset(Pieces(a)) == multiset(Pieces(a[1..])) + multiset{Piece(a[0])}
  {
    assert Pieces(a)[1..] == Pieces(a[1..]);
    MultisetTail(Pieces(a));
  }

  /** Fields that are a permutation of each other give pieces that are a permutation of each other. */
  lemma {:induction false} PiecesOfPermutation(a: Object, b: Object)
    requires multiset(a) == multiset(b)
    ensures multiset(Pieces(a)) == multiset(Pieces(b))
    decreases |a|
  {
    assert |a| == |multiset(a)| == |multiset(b)| == |b|;
    if a != [] {
      MultisetTail(a);
      var j :| 0 <= j < |b| && b[j] == a[0];
      SplitAt(b, j);
      var rest := b[..j] + b[j + 1..];
      PiecesOfPermutation(a[1..], rest);
      PiecesRemove(b, j);
      PiecesTail(a);
    }
  }

  lemma {:induction false} ConcatAppend(xs: seq<JsString>, ys: seq<JsString>)
    ensures Concat(xs + ys) == Concat(xs) + Concat(ys)
  {
    if xs == [] {
      assert xs + ys == ys;
    } else {
      assert (xs + ys)[0] == xs[0];
      assert (xs + ys)[1..] == xs[1..] + ys;
      ConcatAppend(xs[1..], ys);
    }
  }

  /** Taking out the string at `j` shortens the join by exactly its length. */
  lemma ConcatRemoveLength(ys: seq<JsString>, j: nat)
    requires j < |ys|
    ensures |Concat(ys)| == |Concat(ys[..j] + ys[j + 1..])| + |ys[j]|
  {
    var pre, post := ys[..j], ys[j + 1..];
    SplitAt(ys, j);
    ConcatAppend(pre, post);
    ConcatAppend(pre + [ys[j]], post);
    ConcatAppend(pre, [ys[j]]);
    assert Concat([ys[j]]) == ys[j];
  }

  /** Joining a permutation of the same strings gives a string of the same length. */
  lemma {:induction false} ConcatLengthOfPermutation(xs: seq<JsString>, ys: seq<JsString>)
    requires multiset(xs) == multiset(ys)
    ensures |Concat(xs)| == |Concat(ys)|
    decreases |xs|
  {
    assert |xs| == |multiset(xs)| == |multiset(ys)| == |ys|;
    if xs != [] {
      MultisetTail(xs);
      var j :| 0 <= j < |ys| && ys[j] == xs[0];
      SplitAt(ys, j);
      var rest := ys[..j] + ys[j + 1..];
      ConcatLengthOfPermutation(xs[1..], rest);
      ConcatRemoveLength(ys, j);
    }
  }

  lemma {:induction false} ConcatPiecesLength(data: Object)
    ensures |Concat(Pieces(data))| == FieldsLength(data)
  {
    if data != [] {
      assert Pieces(data)[1..] == Pieces(data[1..]);
      ConcatPiecesLength(data[1..]);
    }
  }

  // ---------------------------------------------------------------------------
  // What the signature covers
  // ---------------------------------------------------------------------------

  /**
   * The sorted list has one piece per field, each the field's name followed
   * by its value, in ascending code-unit order.
   */
  lemma SortedPieces(data: Object)
    ensures Ascending(Sort(Pieces(data)))
    ensures |Sort(Pieces(data))| == |data|
    ensures multiset(Sort(Pieces(data))) == multiset(Pieces(data))
    ensures forall p | p in Sort(Pieces(data)) :: exists i | 0 <= i < |data| :: p == data[i].key + ToStr(data[i].value)
  {
    var s := Sort(Pieces(data));
    assert |s| == |multiset(s)| == |multiset(Pieces(data))| == |Pieces(data)|;
    forall p | p in s ensures exists i | 0 <= i < |data| :: p == data[i].key + ToStr(data[i].value) {
      assert p in multiset(Pieces(data));
      var i :| 0 <= i < |Pieces(data)| && Pieces(data)[i] == p;
    }
  }

  /**
   * The pre-hash string is the secret, then the pieces, then the secret
   * again, with no delimiter anywhere: its length is twice the secret's
   * plus the lengths of all field names and values.
   */
  lemma PreHashLayout(secret: Value, data: Object)
    ensures |PreHash(secret, data)| == 2 * |ToStr(secret)| + FieldsLength(data)
    ensures PreHash(secret, data)[..|ToStr(secret)|] == ToStr(secret)
    ensures PreHash(secret, data)[|PreHash(secret, data)| - |ToStr(secret)|..] == ToStr(secret)
  {
    ConcatLengthOfPermutation(Sort(Pieces(data)), Pieces(data));
    ConcatPiecesLength(data);
  }

  /** Permuting the fields changes neither the pre-hash string nor the signature. */
  lemma SignatureOfPermutation(secret: Value, a: Object, b: Object, md5: JsString -> Md5Hex)
    requires multiset(a) == multiset(b)
    ensures PreHash(secret, a) == PreHash(secret, b)
    ensures Signature(secret, a, md5) == Signature(secret, b, md5)
  {
    PiecesOfPermutation(a, b);
    SortOfPermutation(Pieces(a), Pieces(b));
  }

  /**
   * Two objects with the same properties are signed alike, whatever order
   * their properties were inserted in.
   */
  lemma SignatureIgnoresInsertionOrder(secret: Value, a: Object, b: Object, md5: JsString -> Md5Hex)
    requires WellFormed(a) && WellFormed(b)
    requires forall k :: Lookup(a, k) == Lookup(b, k)
    ensures Signature(secret, a, md5) == Signature(secret, b, md5)
  {
    SamePropertiesSameEntries(a, b);
    SignatureOfPermutation(secret, a, b, md5);
  }

  /**
   * The signature is the digest with every letter upper-cased: 32 uppercase
   * hexadecimal digits with no lowercase letter, each digit of the same value
   * as the digest's, and lower-casing it gives the digest back.
   */
  lemma SignatureShape(secret: Value, data: Object, md5: JsString -> Md5Hex)
    ensures |Signature(secret, data, md5)| == |md5(PreHash(secret, data))| == 32
    ensures forall i | 0 <= i < 32 ::
      IsUpperHexDigit(Signature(secret, data, md5)[i]) && !IsLowerAsciiLetter(Signature(secret, data, md5)[i])
    ensures forall i | 0 <= i < 32 ::
      HexDigitValue(Signature(secret, data, md5)[i]) == HexDigitValue(md5(PreHash(secret, data))[i])
    ensures ToLower(Signature(secret, data, md5)) == md5(PreHash(secret, data))
  {
    ToUpperOfDigest(md5(PreHash(secret, data)));
  }
}
