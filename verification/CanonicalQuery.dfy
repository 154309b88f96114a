/** client/src-tauri/src/lib.rs: the canonical query string of AWS Signature Version 4 and its inverse. */
module CanonicalQuery {
  import opened Domain
  import opened Sorting

  /** A byte of a UTF-8 string. */
  type Byte = c: char | c as int < 256

  type Text = seq<Byte>

  datatype Pair<+T> = Pair(key: T, value: T)

  // ----- percent-encoding -----

  /** The unreserved characters of RFC 3986, section 2.3. */
  predicate Unreserved(c: char) {
    ('A' <= c <= 'Z') || ('a' <= c <= 'z') || ('0' <= c <= '9') || c == '-' || c == '_' || c == '.' || c == '~'
  }

  function HexDigit(d: nat): (c: char)
    requires d < 16
    ensures Unreserved(c)
  {
    if d < 10 then ('0' as int + d) as char else ('A' as int + (d - 10)) as char
  }

  function EncodeByte(b: Byte): string {
    if Unreserved(b) then [b] else ['%', HexDigit(b as int / 16), HexDigit(b as int % 16)]
  }

  function EncodeText(s: Text): string {
    if s == [] then "" else EncodeByte(s[0]) + EncodeText(s[1..])
  }

  lemma EncodeStep(s: Text, i: nat, done: string)
    requires i < |s|
    ensures done + EncodeText(s[i..]) == done + EncodeByte(s[i]) + EncodeText(s[i + 1..])
  {
    assert s[i..][0] == s[i] && s[i..][1..] == s[i + 1..];
    assert done + (EncodeByte(s[i]) + EncodeText(s[i + 1..])) == done + EncodeByte(s[i]) + EncodeText(s[i + 1..]);
  }

  method UriEncodeQueryComponent(value: Text) returns (encoded: string)
    ensures encoded == EncodeText(value)
  {
    encoded := "";
    assert value[0..] == value;
    for i := 0 to |value|
      invariant encoded + EncodeText(value[i..]) == EncodeText(value)
    {
      var byte := value[i];
      EncodeStep(value, i, encoded);
      if Unreserved(byte) {
        encoded := encoded + [byte];
      } else {
        encoded := encoded + ['%', HexDigit(byte as int / 16), HexDigit(byte as int % 16)];
      }
    }
    assert value[|value|..] == [];
    assert encoded + "" == encoded;
  }

  // ----- decoding -----

  function HexValue(c: char): Option<nat> {
    if '0' <= c <= '9' then Some(c as int - '0' as int)
    else if 'A' <= c <= 'F' then Some(c as int - 'A' as int + 10)
    else None
  }

  /** Percent-decoding, RFC 3986 section 2.1; None if the text is not a percent-encoding. */
  function DecodeText(s: string): Option<Text> {
    if s == [] then Some([])
    else if s[0] == '%' then
      if |s| < 3 || HexValue(s[1]).None? || HexValue(s[2]).None? then None
      else
        (match DecodeText(s[3..])
         case None => None
         case Some(rest) => Some([(16 * HexValue(s[1]).value + HexValue(s[2]).value) as char] + rest))
    else if s[0] as int >= 256 then None
    else match DecodeText(s[1..])
      case None => None
      case Some(rest) => Some([s[0]] + rest)
  }

  lemma HexRoundTrip(d: nat)
    requires d < 16
    ensures HexValue(HexDigit(d)) == Some(d)
  {
  }

  lemma DecodeByte(b: Byte, rest: string)
    ensures DecodeText(EncodeByte(b) + rest) == match DecodeText(rest)
      case None => None
      case Some(text) => Some([b] + text)
  {
    var e := EncodeByte(b) + rest;
    if Unreserved(b) {
      assert e[0] == b && e[1..] == rest;
    } else {
      HexRoundTrip(b as int / 16);
      HexRoundTrip(b as int % 16);
      assert e[0] == '%' && e[1] == HexDigit(b as int / 16) && e[2] == HexDigit(b as int % 16) && e[3..] == rest;
    }
  }

  lemma {:induction false} DecodeEncode(s: Text)
    ensures DecodeText(EncodeText(s)) == Some(s)
  {
    if s != [] {
      DecodeEncode(s[1..]);
      DecodeByte(s[0], EncodeText(s[1..]));
      assert [s[0]] + s[1..] == s;
    }
  }

  /** Everything the encoder emits is unreserved or a percent sign, so neither separator occurs. */
  lemma {:induction false} EncodedAlphabet(s: Text)
    ensures forall c :: c in EncodeText(s) ==> Unreserved(c) || c == '%'
  {
    if s != [] { EncodedAlphabet(s[1..]); }
  }

  // ----- the canonical query string -----

  function EncodePair(p: Pair<Text>): Pair<string> {
    Pair(EncodeText(p.key), EncodeText(p.value))
  }

  /** The order of tuples of strings. */
  predicate PairLe(a: Pair<string>, b: Pair<string>) {
    if a.key == b.key then LexLe(a.value, b.value) else LexLe(a.key, b.key)
  }

  function Assignment(p: Pair<string>): string {
    p.key + "=" + p.value
  }

  function Join(parts: seq<string>): string {
    if parts == [] then "" else if |parts| == 1 then parts[0] else parts[0] + "&" + Join(parts[1..])
  }

  function Canonical(pairs: seq<Pair<Text>>): string {
    Join(Map(Assignment, Sort(PairLe, Map(EncodePair, pairs))))
  }

  method CanonicalQueryString(pairs: seq<Pair<Text>>) returns (query: string)
    ensures query == Canonical(pairs)
  {
    var encodedPairs := [];
    for i := 0 to |pairs|
      invariant |encodedPairs| == i
      invariant forall k :: 0 <= k < i ==> encodedPairs[k] == EncodePair(pairs[k])
    {
      var key := UriEncodeQueryComponent(pairs[i].key);
      var value := UriEncodeQueryComponent(pairs[i].value);
      encodedPairs := encodedPairs + [Pair(key, value)];
    }
    assert encodedPairs == Map(EncodePair, pairs);
    encodedPairs := Sort(PairLe, encodedPairs);
    query := Join(Map(Assignment, encodedPairs));
  }

  // ----- reading it back -----

  function Find(c: char, s: string): (i: nat)
    ensures i <= |s| && c !in s[..i] && (i < |s| ==> s[i] == c)
  {
    if s == [] || s[0] == c then 0
    else
      var i := 1 + Find(c, s[1..]);
      assert s[..i] == [s[0]] + s[1..][..i - 1];
      i
  }

  function Split(c: char, s: string): (parts: seq<string>)
    ensures parts != []
    decreases |s|
  {
    var i := Find(c, s);
    if i == |s| then [s] else [s[..i]] + Split(c, s[i + 1..])
  }

  function ParseAssignment(s: string): Option<Pair<Text>> {
    var i := Find('=', s);
    if i == |s| then None
    else match (DecodeText(s[..i]), DecodeText(s[i + 1..]))
      case (Some(key), Some(value)) => Some(Pair(key, value))
      case _ => None
  }

  function ParseQuery(s: string): seq<Option<Pair<Text>>> {
    Map(ParseAssignment, Split('&', s))
  }

  lemma {:induction false} FindAfter(c: char, a: string, t: string)
    requires c !in a
    ensures Find(c, a + [c] + t) == |a|
    ensures Find(c, a) == |a|
  {
    if a != [] {
      assert a[0] in a;
      assert (a + [c] + t)[1..] == a[1..] + [c] + t;
      FindAfter(c, a[1..], t);
    }
  }

  lemma {:induction false} SplitJoin(parts: seq<string>)
    requires parts != [] && forall i :: 0 <= i < |parts| ==> '&' !in parts[i]
    ensures Split('&', Join(parts)) == parts
  {
    FindAfter('&', parts[0], if |parts| == 1 then "" else Join(parts[1..]));
    if |parts| == 1 {
      assert parts == [parts[0]];
    } else {
      SplitJoin(parts[1..]);
      var s := Join(parts);
      assert s[..|parts[0]|] == parts[0] && s[|parts[0]| + 1..] == Join(parts[1..]);
      assert parts == [parts[0]] + parts[1..];
    }
  }

  lemma CutAt(a: string, c: char, b: string)
    ensures var s := a + [c] + b; s[..|a|] == a && s[|a| + 1..] == b
  {
  }

  lemma NoSeparators(s: Text)
    ensures '&' !in EncodeText(s) && '=' !in EncodeText(s)
  {
    EncodedAlphabet(s);
  }

  lemma AssignmentRoundTrip(p: Pair<Text>)
    ensures '&' !in Assignment(EncodePair(p))
    ensures ParseAssignment(Assignment(EncodePair(p))) == Some(p)
  {
    var key, value := EncodeText(p.key), EncodeText(p.value);
    NoSeparators(p.key);
    NoSeparators(p.value);
    DecodeEncode(p.key);
    DecodeEncode(p.value);
    FindAfter('=', key, value);
    CutAt(key, '=', value);
  }

  function Wrap(p: Pair<Text>): Option<Pair<Text>> {
    Some(p)
  }

  function ParseEncoded(e: Pair<string>): Option<Pair<Text>> {
    ParseAssignment(Assignment(e))
  }

  lemma SortedAreEncoded(pairs: seq<Pair<Text>>, e: Pair<string>)
    requires e in Sort(PairLe, Map(EncodePair, pairs))
    ensures '&' !in Assignment(e) && '=' !in e.key
  {
    MultisetMember(Sort(PairLe, Map(EncodePair, pairs)), Map(EncodePair, pairs), e);
    var k :| 0 <= k < |pairs| && Map(EncodePair, pairs)[k] == e;
    AssignmentRoundTrip(pairs[k]);
    NoSeparators(pairs[k].key);
  }

  lemma ParseEachEncoded(pairs: seq<Pair<Text>>)
    ensures Map(ParseEncoded, Map(EncodePair, pairs)) == Map(Wrap, pairs)
  {
    forall k | 0 <= k < |pairs| ensures ParseEncoded(EncodePair(pairs[k])) == Some(pairs[k]) {
      AssignmentRoundTrip(pairs[k]);
    }
  }

  lemma SplitSorted(pairs: seq<Pair<Text>>)
    requires pairs != []
    ensures Split('&', Canonical(pairs)) == Map(Assignment, Sort(PairLe, Map(EncodePair, pairs)))
  {
    var sorted := Sort(PairLe, Map(EncodePair, pairs));
    var parts := Map(Assignment, sorted);
    forall i | 0 <= i < |parts| ensures '&' !in parts[i] { SortedAreEncoded(pairs, sorted[i]); }
    SplitJoin(parts);
  }

  lemma SplitCanonical(pairs: seq<Pair<Text>>)
    requires pairs != []
    ensures ParseQuery(Canonical(pairs)) == Map(ParseEncoded, Sort(PairLe, Map(EncodePair, pairs)))
  {
    SplitSorted(pairs);
  }

  /** Splitting at the separators and percent-decoding recovers the pairs that were encoded, up to order. */
  lemma ParseCanonical(pairs: seq<Pair<Text>>)
    requires pairs != []
    ensures multiset(ParseQuery(Canonical(pairs))) == multiset(Map(Wrap, pairs))
  {
    SplitCanonical(pairs);
    MapPermutes(ParseEncoded, Sort(PairLe, Map(EncodePair, pairs)), Map(EncodePair, pairs));
    ParseEachEncoded(pairs);
  }

  // ----- the order of the assignments -----

  /** The part of an assignment before its first equals sign, and the part after it. */
  function KeyOf(assignment: string): string {
    assignment[..Find('=', assignment)]
  }

  function ValueOf(assignment: string): string {
    var i := Find('=', assignment);
    if i == |assignment| then "" else assignment[i + 1..]
  }

  /** The earlier of two assignments has the smaller key, or the same key and a value that is not larger. */
  ghost predicate InOrder(earlier: string, later: string) {
    || Below(KeyOf(earlier), KeyOf(later))
    || (KeyOf(earlier) == KeyOf(later) &&
        (ValueOf(earlier) == ValueOf(later) || Below(ValueOf(earlier), ValueOf(later))))
  }

  lemma AssignmentParts(e: Pair<string>)
    requires '=' !in e.key
    ensures KeyOf(Assignment(e)) == e.key && ValueOf(Assignment(e)) == e.value
  {
    FindAfter('=', e.key, e.value);
    CutAt(e.key, '=', e.value);
  }

  lemma SortedPairs(a: Pair<string>, b: Pair<string>)
    requires '=' !in a.key && '=' !in b.key && PairLe(a, b)
    ensures InOrder(Assignment(a), Assignment(b))
  {
    AssignmentParts(a);
    AssignmentParts(b);
    LexLeIff(a.key, b.key);
    LexLeIff(a.value, b.value);
  }

  /** Between the ampersands stand as many assignments as there are pairs, in the order of encoded keys, and of encoded
      values where keys are equal: byte by byte, a proper prefix first. */
  lemma CanonicalInOrder(pairs: seq<Pair<Text>>)
    requires pairs != []
    ensures var parts := Split('&', Canonical(pairs));
      |parts| == |pairs| && forall i, j :: 0 <= i < j < |parts| ==> InOrder(parts[i], parts[j])
  {
    var sorted := Sort(PairLe, Map(EncodePair, pairs));
    SplitSorted(pairs);
    PairOrder();
    SortOrders(PairLe, Map(EncodePair, pairs));
    forall i, j | 0 <= i < j < |pairs| ensures InOrder(Assignment(sorted[i]), Assignment(sorted[j])) {
      SortedAreEncoded(pairs, sorted[i]);
      SortedAreEncoded(pairs, sorted[j]);
      SortedPairs(sorted[i], sorted[j]);
    }
  }

  /** The encoder leaves a text alone exactly if it is made of letters, digits and the four marks. */
  lemma {:induction false} KeptIff(s: Text)
    ensures EncodeText(s) == s <==> forall k :: 0 <= k < |s| ==>
      'A' <= s[k] <= 'Z' || 'a' <= s[k] <= 'z' || '0' <= s[k] <= '9' || s[k] in {'-', '_', '.', '~'}
    ensures |EncodeText(s)| >= |s|
  {
    if s != [] {
      var e, rest := EncodeText(s), s[1..];
      KeptIff(rest);
      if Unreserved(s[0]) {
        assert e[1..] == EncodeText(rest) && s == [s[0]] + rest;
        assert forall k :: 0 < k < |s| ==> s[k] == rest[k - 1];
        assert forall k :: 0 <= k < |rest| ==> rest[k] == s[k + 1];
      } else {
        assert |e| > |s|;
      }
    }
  }

  lemma PairOrder()
    ensures TotalPreorder(PairLe)
    ensures forall a, b :: PairLe(a, b) && PairLe(b, a) ==> a == b
  {
    forall a, b ensures PairLe(a, b) || PairLe(b, a) { LexTotal(a.key, b.key); LexTotal(a.value, b.value); }
    forall a, b, c | PairLe(a, b) && PairLe(b, c) ensures PairLe(a, c) {
      PairTransitive(a, b, c);
    }
    forall a, b | PairLe(a, b) && PairLe(b, a) ensures a == b {
      if a.key == b.key { LexAntisymmetric(a.value, b.value); } else { LexAntisymmetric(a.key, b.key); }
    }
  }

  lemma PairTransitive(a: Pair<string>, b: Pair<string>, c: Pair<string>)
    requires PairLe(a, b) && PairLe(b, c)
    ensures PairLe(a, c)
  {
    if a.key == b.key == c.key {
      LexTransitive(a.value, b.value, c.value);
    } else if a.key != b.key && b.key != c.key {
      LexTransitive(a.key, b.key, c.key);
      if a.key == c.key { LexAntisymmetric(a.key, b.key); }
    }
  }

  /** The canonical string depends only on which pairs there are, not on their order. */
  lemma CanonicalForgetsOrder(p: seq<Pair<Text>>, q: seq<Pair<Text>>)
    requires multiset(p) == multiset(q)
    ensures Canonical(p) == Canonical(q)
  {
    MapPermutes(EncodePair, p, q);
    PairOrder();
    SortForgetsOrder(PairLe, Map(EncodePair, p), Map(EncodePair, q));
  }

  function Unwrap(o: Option<Pair<Text>>): Pair<Text> {
    match o
    case Some(p) => p
    case None => Pair([], [])
  }

  lemma UnwrapWrap(p: seq<Pair<Text>>)
    ensures Map(Unwrap, Map(Wrap, p)) == p
  {
  }

  lemma WrapInjective(p: seq<Pair<Text>>, q: seq<Pair<Text>>)
    requires multiset(Map(Wrap, p)) == multiset(Map(Wrap, q))
    ensures multiset(p) == multiset(q)
  {
    MapPermutes(Unwrap, Map(Wrap, p), Map(Wrap, q));
    UnwrapWrap(p);
    UnwrapWrap(q);
  }

  lemma CanonicalEmptyIff(p: seq<Pair<Text>>)
    ensures Canonical(p) == "" <==> p == []
  {
    if p != [] {
      var parts := Map(Assignment, Sort(PairLe, Map(EncodePair, p)));
      assert |parts| == |p| && |parts[0]| > 0;
    }
  }

  /** Two lists of pairs, empty ones included, have the same canonical string if and only if they are permutations. */
  lemma CanonicalIff(p: seq<Pair<Text>>, q: seq<Pair<Text>>)
    ensures Canonical(p) == Canonical(q) <==> multiset(p) == multiset(q)
  {
    if multiset(p) == multiset(q) { CanonicalForgetsOrder(p, q); }
    if Canonical(p) == Canonical(q) {
      CanonicalEmptyIff(p);
      CanonicalEmptyIff(q);
      if p != [] {
        ParseCanonical(p);
        ParseCanonical(q);
        WrapInjective(p, q);
      }
    }
  }
}
