/** Shared vocabulary: identifiers, optional values, and JavaScript's string trimming. */
module Common {

  /** Every persisted record is named by an opaque identifier (a Mongo ObjectId in the system). */
  type UserId = nat
  type CaseId = nat
  type RecordId = nat
  /** Identifier of a blob held by the storage gateway (a Cloudinary publicId). */
  type BlobId = nat

  datatype Option<T> = None | Some(value: T) {
    function GetOr(default: T): T {
      match this
      case Some(v) => v
      case None => default
    }
  }

  /**
   * The characters String.prototype.trim removes: the WhiteSpace and LineTerminator code points
   * of ECMAScript (section 12.2 and 12.3 of ECMA-262), that is tab, line feed, vertical tab,
   * form feed, carriage return, space, no-break space, ogham space mark, the en quad to hair
   * space block, line and paragraph separator, narrow no-break space, medium mathematical space,
   * ideographic space and the byte order mark.
   */
  predicate IsSpace(c: char) {
    var n := c as int;
    || (9 <= n <= 13) || n == 32 || n == 160 || n == 0x1680
    || (0x2000 <= n <= 0x200A) || n == 0x2028 || n == 0x2029 || n == 0x202F || n == 0x205F
    || n == 0x3000 || n == 0xFEFF
  }

  predicate AllSpace(s: string) {
    forall i :: 0 <= i < |s| ==> IsSpace(s[i])
  }

  /** Drops leading whitespace (see TrimStartDropsSpace for what is dropped). */
  function TrimStart(s: string): (r: string)
    ensures |r| <= |s|
    ensures r == [] <==> AllSpace(s)
    ensures r == [] || !IsSpace(r[0])
    ensures r != [] ==> r[|r| - 1] == s[|s| - 1]
  {
    if s != [] && IsSpace(s[0]) then TrimStart(s[1..]) else s
  }

  /** Drops trailing whitespace (see TrimEndDropsSpace for what is dropped). */
  function TrimEnd(s: string): (r: string)
    ensures |r| <= |s|
    ensures r == [] <==> AllSpace(s)
    ensures r == [] || !IsSpace(r[|r| - 1])
    ensures r != [] ==> r[0] == s[0]
  {
    if s != [] && IsSpace(s[|s| - 1]) then TrimEnd(s[..|s| - 1]) else s
  }

  /** String.prototype.trim. */
  function Trim(s: string): (r: string)
    ensures |r| <= |s|
    ensures r == [] <==> AllSpace(s)
    ensures r != [] ==> !IsSpace(r[0]) && !IsSpace(r[|r| - 1])
  {
    TrimEnd(TrimStart(s))
  }

  /** Non-ASCII whitespace is trimmed too: an ideographic space or a byte order mark alone is blank. */
  lemma WideSpaceIsBlank()
    ensures Trim("\U{3000}") == [] && Trim("\U{FEFF}\U{2028}") == []
    ensures Trim("\U{00A0}x\U{205F}") == "x"
  {
  }

  /** TrimStart keeps a suffix of `s` and drops only whitespace. */
  lemma {:induction false} TrimStartDropsSpace(s: string)
    ensures TrimStart(s) == s[|s| - |TrimStart(s)|..]
    ensures AllSpace(s[..|s| - |TrimStart(s)|])
  {
    if s != [] && IsSpace(s[0]) {
      var t := TrimStart(s[1..]);
      TrimStartDropsSpace(s[1..]);
      var k := |s| - |t|;
      assert s[1..][k - 1..] == s[k..];
      assert forall i :: 1 <= i < k ==> s[..k][i] == s[1..][..k - 1][i - 1];
    }
  }

  /** TrimEnd keeps a prefix of `s` and drops only whitespace. */
  lemma {:induction false} TrimEndDropsSpace(s: string)
    ensures TrimEnd(s) == s[..|TrimEnd(s)|]
    ensures AllSpace(s[|TrimEnd(s)|..])
  {
    if s != [] && IsSpace(s[|s| - 1]) {
      TrimEndDropsSpace(s[..|s| - 1]);
      assert s[..|s| - 1][|TrimEnd(s)|..] == s[|TrimEnd(s)|..|s| - 1];
    }
  }

  /** Trimming keeps one contiguous piece of `s` and drops only whitespace around it. */
  lemma {:induction false} TrimKeepsMiddle(s: string)
    ensures exists i, j :: 0 <= i <= j <= |s| && Trim(s) == s[i..j] && AllSpace(s[..i]) && AllSpace(s[j..])
  {
    var t := TrimStart(s);
    TrimStartDropsSpace(s);
    TrimEndDropsSpace(t);
    var i := |s| - |t|;
    var j := i + |TrimEnd(t)|;
    assert t == s[i..];
    assert Trim(s) == s[i..j];
    assert s[j..] == t[|TrimEnd(t)|..];
    assert 0 <= i <= j <= |s| && Trim(s) == s[i..j] && AllSpace(s[..i]) && AllSpace(s[j..]);
  }

  /** What the trim setter leaves behind: no whitespace at either end. */
  predicate IsTrimmed(s: string) {
    s == [] || (!IsSpace(s[0]) && !IsSpace(s[|s| - 1]))
  }

  /** The trimmed strings are exactly the ones trimming leaves alone. */
  lemma {:induction false} TrimmedIsFixedPoint(s: string)
    ensures IsTrimmed(s) <==> Trim(s) == s
    ensures IsTrimmed(Trim(s))
  {
    if IsTrimmed(s) && s != [] {
      assert TrimStart(s) == s;
      assert TrimEnd(s) == s;
    }
  }

  /** Trimming twice is trimming once. */
  lemma {:induction false} TrimIsIdempotent(s: string)
    ensures Trim(Trim(s)) == Trim(s)
  {
    TrimmedIsFixedPoint(Trim(s));
  }

  /** A JavaScript string is truthy exactly when it is not empty. */
  predicate Truthy(s: Option<string>) {
    s.Some? && s.value != ""
  }

  /** Present and not blank once trimmed: the `val != null && String(val).trim() !== ''` test. */
  predicate Filled(s: Option<string>) {
    s.Some? && Trim(s.value) != ""
  }

  /** `value || ''` for an optional text field. */
  function OrEmpty(s: Option<string>): (r: string)
    ensures s.Some? ==> r == s.value
    ensures s.None? ==> r == ""
  {
    s.GetOr("")
  }

  /** Array.prototype.slice(0, n). */
  function Take<T>(s: seq<T>, n: nat): (r: seq<T>)
    ensures |r| == if |s| < n then |s| else n
    ensures r == s[..|r|]
  {
    if |s| <= n then s else s[..n]
  }

  /** True exactly when the sequence has no repeated element. */
  predicate Distinct<T(==)>(s: seq<T>) {
    forall i, j :: 0 <= i < j < |s| ==> s[i] != s[j]
  }
}
