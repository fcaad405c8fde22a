/**
 * The cache keys of ConcertService. The listing key is written as the six filter values
 * joined by '-', with an absent filter written "null"; the corrected key writes each value
 * with its length, so that no two filters share a key.
 */
module ConcertKeys {
  import opened Wrappers
  import opened Model
  import Decimal

  /** The filters of the concert listing; all optional. */
  datatype ConcertFilter = ConcertFilter(
    name: Option<string>,
    artist: Option<string>,
    venueName: Option<string>,
    start: Option<Timestamp>,
    end: Option<Timestamp>,
    minCap: Option<int>)

  /** `%s` of a nullable string. */
  function Shown(s: Option<string>): string {
    match s
    case None => "null"
    case Some(x) => x
  }

  /** `%s` of a nullable number (instants are written as their numbers here). */
  function ShownNumber(x: Option<int>): string {
    match x
    case None => "null"
    case Some(v) => Decimal.IntToString(v)
  }

  /** The listing key as written: `concerts_all::name-artist-venue-start-end-minCap`. */
  function ListKeyAsWritten(f: ConcertFilter): string {
    "concerts_all::" + Shown(f.name) + "-" + Shown(f.artist) + "-" + Shown(f.venueName) + "-"
      + ShownNumber(f.start) + "-" + ShownNumber(f.end) + "-" + ShownNumber(f.minCap)
  }

  /** An absent name filter and a name filter of "null" get the same listing key. */
  lemma NullNameCollides()
    ensures var everything := ConcertFilter(None, None, None, None, None, None);
      var named := everything.(name := Some("null"));
      everything != named && ListKeyAsWritten(everything) == ListKeyAsWritten(named)
  {
  }

  predicate NoColon(s: string) {
    forall i :: 0 <= i < |s| ==> s[i] != ':'
  }

  lemma IntToStringNoColon(v: int)
    ensures NoColon(Decimal.IntToString(v))
  {
    var s := Decimal.IntToString(v);
    if v < 0 {
      assert s == "-" + Decimal.Digits(-v);
      assert forall i :: 1 <= i < |s| ==> s[i] == Decimal.Digits(-v)[i - 1];
    }
  }

  /** A nullable string as `n`, or `s`, its length, `:` and the text itself. */
  function Field(s: Option<string>): string {
    match s
    case None => "n"
    case Some(x) => "s" + (Decimal.Digits(|x|) + (":" + x))
  }

  /** A nullable number as `n`, or `i`, its decimal text and `:`. */
  function NumberField(x: Option<int>): string {
    match x
    case None => "n"
    case Some(v) => "i" + (Decimal.IntToString(v) + ":")
  }

  /** The corrected listing key: every field says where it ends. */
  function ListKey(f: ConcertFilter): string {
    "concerts_all::" + (Field(f.name) + (Field(f.artist) + (Field(f.venueName)
      + (NumberField(f.start) + (NumberField(f.end) + NumberField(f.minCap))))))
  }

  /** In a text without ':' followed by ':', the first ':' is right after the text. */
  lemma FirstColon(a: string, r: string)
    requires NoColon(a)
    ensures var s := a + ([':'] + r);
      s[|a|] == ':' && forall k :: 0 <= k < |a| ==> s[k] != ':'
  {
  }

  /** Two texts without ':' that are each followed by ':' can be told apart at the first ':'. */
  lemma ColonDelimited(a: string, b: string, r1: string, r2: string)
    requires NoColon(a) && NoColon(b)
    requires a + ([':'] + r1) == b + ([':'] + r2)
    ensures a == b && r1 == r2
  {
    var s1 := a + ([':'] + r1);
    var s2 := b + ([':'] + r2);
    FirstColon(a, r1);
    FirstColon(b, r2);
    assert |a| == |b|;
    assert a == s1[..|a|] && b == s2[..|b|];
    assert r1 == s1[|a| + 1..] && r2 == s2[|b| + 1..];
  }

  lemma DigitsNoColon(n: nat)
    ensures NoColon(Decimal.Digits(n))
  {
  }

  lemma TextFieldsDelimited(x: string, y: string, r1: string, r2: string)
    requires Decimal.Digits(|x|) + ([':'] + (x + r1)) == Decimal.Digits(|y|) + ([':'] + (y + r2))
    ensures x == y && r1 == r2
  {
    DigitsNoColon(|x|);
    DigitsNoColon(|y|);
    ColonDelimited(Decimal.Digits(|x|), Decimal.Digits(|y|), x + r1, y + r2);
    Decimal.DigitsInjective(|x|, |y|);
    assert x == (x + r1)[..|x|] && y == (y + r2)[..|y|];
    assert r1 == (x + r1)[|x|..] && r2 == (y + r2)[|y|..];
  }

  /** Only the tag tells a null field from a present one. */
  lemma Tag(f: string, r: string)
    requires |f| > 0
    ensures (f + r)[0] == f[0] && (f + r)[1..] == f[1..] + r
  {
  }

  /** After the tag of a present field come its length, ':', its text and what follows. */
  lemma FieldRest(x: string, r: string)
    ensures Field(Some(x))[1..] + r == Decimal.Digits(|x|) + ([':'] + (x + r))
  {
  }

  /** After the tag of a present number come its numeral, ':' and what follows. */
  lemma NumberFieldRest(v: int, r: string)
    ensures NumberField(Some(v))[1..] + r == Decimal.IntToString(v) + ([':'] + r)
  {
  }

  /** A field followed by anything determines the field and the rest. */
  lemma FieldDelimited(a: Option<string>, b: Option<string>, r1: string, r2: string)
    requires Field(a) + r1 == Field(b) + r2
    ensures a == b && r1 == r2
  {
    Tag(Field(a), r1);
    Tag(Field(b), r2);
    if a.Some? && b.Some? {
      var x, y := a.value, b.value;
      FieldRest(x, r1);
      FieldRest(y, r2);
      TextFieldsDelimited(x, y, r1, r2);
    }
  }

  /** The same for a number field. */
  lemma NumberFieldDelimited(a: Option<int>, b: Option<int>, r1: string, r2: string)
    requires NumberField(a) + r1 == NumberField(b) + r2
    ensures a == b && r1 == r2
  {
    Tag(NumberField(a), r1);
    Tag(NumberField(b), r2);
    if a.Some? && b.Some? {
      IntToStringNoColon(a.value);
      IntToStringNoColon(b.value);
      NumberFieldRest(a.value, r1);
      NumberFieldRest(b.value, r2);
      ColonDelimited(Decimal.IntToString(a.value), Decimal.IntToString(b.value), r1, r2);
      Decimal.IntToStringInjective(a.value, b.value);
    }
  }

  /** The corrected key tells every two filters apart. */
  lemma ListKeyInjective(f: ConcertFilter, g: ConcertFilter)
    requires ListKey(f) == ListKey(g)
    ensures f == g
  {
    var p := "concerts_all::";
    var tf := Field(f.name) + (Field(f.artist) + (Field(f.venueName)
      + (NumberField(f.start) + (NumberField(f.end) + NumberField(f.minCap)))));
    var tg := Field(g.name) + (Field(g.artist) + (Field(g.venueName)
      + (NumberField(g.start) + (NumberField(g.end) + NumberField(g.minCap)))));
    assert tf == ListKey(f)[|p|..] && tg == ListKey(g)[|p|..];
    FieldDelimited(f.name, g.name, Field(f.artist) + (Field(f.venueName)
      + (NumberField(f.start) + (NumberField(f.end) + NumberField(f.minCap)))),
      Field(g.artist) + (Field(g.venueName) + (NumberField(g.start) + (NumberField(g.end) + NumberField(g.minCap)))));
    FieldDelimited(f.artist, g.artist, Field(f.venueName) + (NumberField(f.start) + (NumberField(f.end) + NumberField(f.minCap))),
      Field(g.venueName) + (NumberField(g.start) + (NumberField(g.end) + NumberField(g.minCap))));
    FieldDelimited(f.venueName, g.venueName, NumberField(f.start) + (NumberField(f.end) + NumberField(f.minCap)),
      NumberField(g.start) + (NumberField(g.end) + NumberField(g.minCap)));
    NumberFieldDelimited(f.start, g.start, NumberField(f.end) + NumberField(f.minCap), NumberField(g.end) + NumberField(g.minCap));
    NumberFieldDelimited(f.end, g.end, NumberField(f.minCap), NumberField(g.minCap));
    assert NumberField(f.minCap) + [] == NumberField(g.minCap) + [];
    NumberFieldDelimited(f.minCap, g.minCap, [], []);
  }

  /** The detail key of a concert. */
  function DetailKey(id: Uuid): string {
    "concert_detail::" + Decimal.Digits(id)
  }

  lemma DetailKeysDistinct(m: Uuid, n: Uuid)
    requires m != n
    ensures DetailKey(m) != DetailKey(n)
  {
    Decimal.PrefixedDigitsInjective("concert_detail::", m, n);
  }

  /** Detail keys and listing keys never meet. */
  lemma DetailIsNotListing(id: Uuid, f: ConcertFilter)
    ensures DetailKey(id) != ListKey(f) && DetailKey(id) != ListKeyAsWritten(f)
  {
    assert DetailKey(id)[7] == '_';
    assert ListKey(f)[7] == 's';
    assert ListKeyAsWritten(f)[7] == 's';
  }
}
