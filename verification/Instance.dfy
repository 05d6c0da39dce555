/** Instance identifiers and the namespaces named after them. The digest function is a
    parameter: nothing is assumed of it but its length. Digits are written in base 32 (section 6 of RFC 4648, lower case, no padding). */
module Instance {

  const LABEL_INSTANCE_ID := "oteloperator.services.open-control-plane.io/instance-id"
  const PREFIX := "otel-operator-"

  newtype Byte = b: int | 0 <= b < 256
  newtype Digit = d: int | 0 <= d < 32

  type DigestFunction = string -> seq<Byte>

  // ----- Base 32 -----

  function Digits(b0: Byte, b1: Byte, b2: Byte, b3: Byte, b4: Byte): (d: seq<Digit>)
    ensures |d| == 8
  {
    var x0, x1, x2, x3, x4 := b0 as int, b1 as int, b2 as int, b3 as int, b4 as int;
    [(x0 / 8) as Digit,
     (x0 % 8 * 4 + x1 / 64) as Digit,
     (x1 / 2 % 32) as Digit,
     (x1 % 2 * 16 + x2 / 16) as Digit,
     (x2 % 16 * 2 + x3 / 128) as Digit,
     (x3 / 4 % 32) as Digit,
     (x3 % 4 * 8 + x4 / 32) as Digit,
     (x4 % 32) as Digit]
  }

  /** The five bytes that eight digits stand for. */
  function Bytes(d: seq<Digit>): (b: seq<Byte>)
    requires |d| == 8
    ensures |b| == 5
  {
    var y: seq<int> := seq(8, i requires 0 <= i < 8 => d[i] as int);
    [(y[0] * 8 + y[1] / 4) as Byte,
     (y[1] % 4 * 64 + y[2] * 2 + y[3] / 16) as Byte,
     (y[3] % 16 * 16 + y[4] / 2) as Byte,
     (y[4] % 2 * 128 + y[5] * 4 + y[6] / 8) as Byte,
     (y[6] % 8 * 32 + y[7]) as Byte]
  }

  lemma Joined(high: int, low: int, m: int)
    requires m in {2, 4, 8, 16} && 0 <= low < m
    ensures (high * m + low) / m == high && (high * m + low) % m == low
  {
  }

  lemma DividedTwice(x: int)
    requires 0 <= x < 256
    ensures x / 2 / 32 == x / 64
    ensures x / 4 / 32 == x / 128
  {
  }

  lemma Recombined(x: int, m: int)
    requires 0 <= x < 256 && m in {2, 4, 32}
    ensures x == x / m * m + x % m
  {
  }

  lemma SplitInThree(x: int)
    requires 0 <= x < 256
    ensures x / 64 * 64 + x / 2 % 32 * 2 + x % 2 == x
    ensures x / 128 * 128 + x / 4 % 32 * 4 + x % 4 == x
  {
    var half, quarter := x / 2, x / 4;
    DividedTwice(x);
    Recombined(x, 2);
    Recombined(x, 4);
    Recombined(half, 32);
    Recombined(quarter, 32);
    assert half == x / 64 * 32 + half % 32;
    assert quarter == x / 128 * 32 + quarter % 32;
  }

  lemma GroupRoundTrip(b0: Byte, b1: Byte, b2: Byte, b3: Byte, b4: Byte)
    ensures Bytes(Digits(b0, b1, b2, b3, b4)) == [b0, b1, b2, b3, b4]
  {
    var x0, x1, x2, x3, x4 := b0 as int, b1 as int, b2 as int, b3 as int, b4 as int;
    Joined(x0 % 8, x1 / 64, 4);
    Joined(x1 % 2, x2 / 16, 16);
    Joined(x2 % 16, x3 / 128, 2);
    Joined(x3 % 4, x4 / 32, 8);
    SplitInThree(x1);
    SplitInThree(x3);
    var d := Digits(b0, b1, b2, b3, b4);
    assert Bytes(d)[0] == b0;
    assert Bytes(d)[1] == b1;
    assert Bytes(d)[2] == b2;
    assert Bytes(d)[3] == b3;
    assert Bytes(d)[4] == b4;
  }

  function EncodeDigits(bytes: seq<Byte>): (d: seq<Digit>)
    requires |bytes| % 5 == 0
    ensures |d| == |bytes| / 5 * 8
  {
    if bytes == [] then []
    else Digits(bytes[0], bytes[1], bytes[2], bytes[3], bytes[4]) + EncodeDigits(bytes[5..])
  }

  function DecodeDigits(digits: seq<Digit>): seq<Byte>
    requires |digits| % 8 == 0
  {
    if digits == [] then [] else Bytes(digits[..8]) + DecodeDigits(digits[8..])
  }

  lemma {:induction false} DigitsRoundTrip(bytes: seq<Byte>)
    requires |bytes| % 5 == 0
    ensures DecodeDigits(EncodeDigits(bytes)) == bytes
  {
    if bytes != [] {
      var first := Digits(bytes[0], bytes[1], bytes[2], bytes[3], bytes[4]);
      var rest := EncodeDigits(bytes[5..]);
      assert (first + rest)[..8] == first && (first + rest)[8..] == rest;
      GroupRoundTrip(bytes[0], bytes[1], bytes[2], bytes[3], bytes[4]);
      DigitsRoundTrip(bytes[5..]);
      assert bytes == [bytes[0], bytes[1], bytes[2], bytes[3], bytes[4]] + bytes[5..];
    }
  }

  /** The alphabet: a to z, then 2 to 7. */
  function Letter(d: Digit): char {
    if d < 26 then 'a' + d as char else '2' + (d - 26) as char
  }

  lemma LetterOfAlphabet(d: Digit)
    ensures Letter(d) == "abcdefghijklmnopqrstuvwxyz234567"[d as int]
  {
    var alphabet := "abcdefghijklmnopqrstuvwxyz234567";
    var n := d as int;
    assert alphabet[..13] == "abcdefghijklm" && alphabet[13..26] == "nopqrstuvwxyz" && alphabet[26..] == "234567";
    if n < 13 {
      assert alphabet[n] == alphabet[..13][n];
    } else if n < 26 {
      assert alphabet[n] == alphabet[13..26][n - 13];
    } else {
      assert alphabet[n] == alphabet[26..][n - 26];
    }
  }

  function Written(digits: seq<Digit>): (s: string)
    ensures |s| == |digits|
  {
    if digits == [] then "" else [Letter(digits[0])] + Written(digits[1..])
  }

  lemma {:induction false} WrittenIsInjective(a: seq<Digit>, b: seq<Digit>)
    requires Written(a) == Written(b)
    ensures a == b
  {
    if a != [] {
      assert b != [];
      assert Written(a)[0] == Written(b)[0] && Written(a)[1..] == Written(b)[1..];
      WrittenIsInjective(a[1..], b[1..]);
      assert a == [a[0]] + a[1..] && b == [b[0]] + b[1..];
    }
  }

  /** The known answer for the bytes of "fooba" (section 10 of RFC 4648), in lower case. */
  lemma KnownAnswer()
    ensures Written(EncodeDigits([102, 111, 111, 98, 97])) == "mzxw6ytb"
  {
    hide EncodeDigits, Written;
    KnownDigits();
    WrittenOneByOne([12, 25, 23, 22, 30, 24, 19, 1]);
  }

  lemma KnownDigits()
    ensures EncodeDigits([102, 111, 111, 98, 97]) == [12, 25, 23, 22, 30, 24, 19, 1]
  {
    var bytes: seq<Byte> := [102, 111, 111, 98, 97];
    assert bytes[5..] == [];
  }

  lemma {:induction false} WrittenOneByOne(digits: seq<Digit>)
    ensures forall i :: 0 <= i < |digits| ==> Written(digits)[i] == Letter(digits[i])
  {
    if digits != [] {
      WrittenOneByOne(digits[1..]);
    }
  }

  predicate NamespaceLetter(c: char) {
    'a' <= c <= 'z' || '2' <= c <= '7' || c == '-'
  }

  lemma {:induction false} WrittenLetters(digits: seq<Digit>)
    ensures forall c :: c in Written(digits) ==> NamespaceLetter(c)
  {
    if digits != [] {
      WrittenLetters(digits[1..]);
    }
  }

  // ----- Identifiers -----

  function GenerateId(digest: DigestFunction, namespace: string, name: string): string
    requires |digest(Print(namespace, name))| == 20
  {
    Written(EncodeDigits(digest(Print(namespace, name))))
  }

  function NamespaceOf(id: string): string {
    PREFIX + id
  }

  function GetId(labels: map<string, string>): string {
    if LABEL_INSTANCE_ID in labels then labels[LABEL_INSTANCE_ID] else ""
  }

  ghost predicate TwentyBytes(digest: DigestFunction) {
    forall s :: |digest(s)| == 20
  }

  /** What is digested for an instance. */
  function Print(namespace: string, name: string): string {
    namespace + "/" + name
  }

  /** Namespace and name can be told apart again, as namespaces contain no slash. */
  lemma PrintIsInjective(ns1: string, name1: string, ns2: string, name2: string)
    requires '/' !in ns1 && '/' !in ns2
    requires Print(ns1, name1) == Print(ns2, name2)
    ensures ns1 == ns2 && name1 == name2
  {
    FirstSlash(ns1, name1);
    FirstSlash(ns2, name2);
    var s := ns1 + "/" + name1;
    assert s[..|ns1|] == ns1 && s[|ns1| + 1..] == name1;
    assert (ns2 + "/" + name2)[..|ns2|] == ns2 && (ns2 + "/" + name2)[|ns2| + 1..] == name2;
  }

  lemma FirstSlash(namespace: string, name: string)
    requires '/' !in namespace
    ensures var s := namespace + "/" + name;
            s[|namespace|] == '/' && forall i :: 0 <= i < |namespace| ==> s[i] != '/'
  {
  }

  /** Two instances share a namespace exactly when their prints, which differ if the instances
      do, have the same digest. */
  lemma NamespacesAgreeIff(digest: DigestFunction, ns1: string, name1: string, ns2: string, name2: string)
    requires TwentyBytes(digest)
    ensures NamespaceOf(GenerateId(digest, ns1, name1)) == NamespaceOf(GenerateId(digest, ns2, name2))
            <==> digest(ns1 + "/" + name1) == digest(ns2 + "/" + name2)
  {
    var id1, id2 := GenerateId(digest, ns1, name1), GenerateId(digest, ns2, name2);
    assert NamespaceOf(id1)[|PREFIX|..] == id1 && NamespaceOf(id2)[|PREFIX|..] == id2;
    var a, b := digest(Print(ns1, name1)), digest(Print(ns2, name2));
    if id1 == id2 {
      WrittenIsInjective(EncodeDigits(a), EncodeDigits(b));
      DigitsRoundTrip(a);
      DigitsRoundTrip(b);
    }
  }

  /** An instance namespace is a 46-character label of lower-case letters, digits and hyphens. */
  lemma NamespaceShape(digest: DigestFunction, namespace: string, name: string)
    requires TwentyBytes(digest)
    ensures var ns := NamespaceOf(GenerateId(digest, namespace, name));
            && |ns| == 46 && ns[..14] == "otel-operator-"
            && forall c :: c in ns ==> 'a' <= c <= 'z' || '2' <= c <= '7' || c == '-'
  {
    WrittenLetters(EncodeDigits(digest(Print(namespace, name))));
  }
}
