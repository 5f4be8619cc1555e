/**
 * `EnumMapper`: the total, normalising decoder from a backend string to an
 * enum member, with a fallback, and its encoder `mapEnumToString`.
 *
 * A TypeScript string enum is `Object.keys` order of its (key, value) pairs;
 * `text` is `String(value)`.
 */
module EnumMapper {
  import opened Wrappers
  import Text
  import Seqs

  datatype Entry<E> = Entry(key: string, value: E)

  /** The `find` predicate: the key or the value's string, upper-cased, equals the normalised input. */
  predicate Matches<E>(e: Entry<E>, text: E -> string, normalized: string) {
    Text.ToUpper(e.key) == normalized || Text.ToUpper(text(e.value)) == normalized
  }

  /** `Array.prototype.findIndex` with `Matches`: the first entry that matches. */
  function FindIndex<E>(es: seq<Entry<E>>, text: E -> string, normalized: string): (r: Option<nat>)
    ensures r.Some? ==> r.value < |es| && Matches(es[r.value], text, normalized)
    ensures r.Some? ==> forall j :: 0 <= j < r.value ==> !Matches(es[j], text, normalized)
    ensures r.None? ==> forall j :: 0 <= j < |es| ==> !Matches(es[j], text, normalized)
  {
    if es == [] then None
    else if Matches(es[0], text, normalized) then Some(0)
    else match FindIndex(es[1..], text, normalized)
      case None => None
      case Some(k) => Some(k + 1)
  }

  /** The string the decoder compares against: `input.trim().toUpperCase()`. */
  function Normalize(s: string): string {
    Text.ToUpper(Text.Trim(s))
  }

  /** `mapStringToEnum(input, enumType, defaultValue)`. */
  function MapStringToEnum<E>(input: Option<string>, es: seq<Entry<E>>, text: E -> string, default: E): (r: E)
    ensures r == default || exists i :: 0 <= i < |es| && es[i].value == r
    ensures !Truthy(input) ==> r == default
  {
    if !Truthy(input) then default
    else match FindIndex(es, text, Normalize(input.value))
      case Some(i) => if es[i].key != [] then es[i].value else default
      case None => default
  }

  /** `mapEnumToString(value)`: `String(value)`. */
  function MapEnumToString<E>(text: E -> string, v: E): string {
    text(v)
  }

  /**
   * A name the decoder can read back: non-empty and made of the printable ASCII
   * characters up to '_' (digits, upper-case letters, '_').
   */
  predicate Canonical(k: string) {
    k != [] && forall i :: 0 <= i < |k| ==> ' ' < k[i] <= '_'
  }

  /** A canonical name has no lower-case letter and no white space at its ends. */
  lemma CanonicalUpper(k: string)
    requires Canonical(k)
    ensures Text.NoLower(k) && Text.Tight(k)
  {
  }

  /** A string enum whose keys equal their values, all canonical, with distinct values. */
  ghost predicate WellFormed<E(!new)>(es: seq<Entry<E>>, text: E -> string) {
    (forall i :: 0 <= i < |es| ==> es[i].key == text(es[i].value) && Canonical(es[i].key))
    && (forall a, b :: text(a) == text(b) ==> a == b)
  }

  /** `v` is one of the enum's members. */
  ghost predicate Listed<E>(es: seq<Entry<E>>, v: E) {
    exists i :: 0 <= i < |es| && es[i].value == v
  }

  /** An input whose normalised form is the name of a member decodes to that member. */
  lemma Recognizes<E(!new)>(s: string, es: seq<Entry<E>>, text: E -> string, default: E, v: E)
    requires WellFormed(es, text) && Listed(es, v)
    requires Normalize(s) == text(v)
    ensures MapStringToEnum(Some(s), es, text, default) == v
  {
    var i :| 0 <= i < |es| && es[i].value == v;
    assert |Normalize(s)| == |Text.Trim(s)| > 0;
    CanonicalUpper(es[i].key);
    Text.NoLowerToUpper(es[i].key);
    assert Matches(es[i], text, Normalize(s));
    var r := FindIndex(es, text, Normalize(s));
    assert r.Some?;
    var j := r.value;
    CanonicalUpper(es[j].key);
    Text.NoLowerToUpper(es[j].key);
  }

  /** An input whose normalised form names no member decodes to the default. */
  lemma Rejects<E(!new)>(s: string, es: seq<Entry<E>>, text: E -> string, default: E)
    requires WellFormed(es, text)
    requires forall i :: 0 <= i < |es| ==> Normalize(s) != text(es[i].value)
    ensures MapStringToEnum(Some(s), es, text, default) == default
  {
    forall i | 0 <= i < |es| ensures !Matches(es[i], text, Normalize(s)) {
      CanonicalUpper(es[i].key);
      Text.NoLowerToUpper(es[i].key);
    }
  }

  /** White space alone names nothing: it decodes to the default. */
  lemma BlankIsDefault<E(!new)>(s: string, es: seq<Entry<E>>, text: E -> string, default: E)
    requires WellFormed(es, text)
    requires Text.Blank(s)
    ensures MapStringToEnum(Some(s), es, text, default) == default
  {
    forall i | 0 <= i < |es| ensures Normalize(s) != text(es[i].value) {
      assert |Normalize(s)| == 0;
    }
    Rejects(s, es, text, default);
  }

  /** `mapStringToEnum(mapEnumToString(v)) == v` for every member `v`. */
  lemma RoundTrip<E(!new)>(es: seq<Entry<E>>, text: E -> string, default: E, v: E)
    requires WellFormed(es, text) && Listed(es, v)
    ensures MapStringToEnum(Some(MapEnumToString(text, v)), es, text, default) == v
  {
    var i :| 0 <= i < |es| && es[i].value == v;
    CanonicalUpper(text(v));
    Text.TightTrim(text(v));
    Text.NoLowerToUpper(text(v));
    Recognizes(text(v), es, text, default, v);
  }

  /** Decoding the string of a decoded value gives the same value back. */
  lemma Idempotent<E(!new)>(input: Option<string>, es: seq<Entry<E>>, text: E -> string, default: E)
    requires WellFormed(es, text) && Listed(es, default)
    ensures var r := MapStringToEnum(input, es, text, default);
            MapStringToEnum(Some(MapEnumToString(text, r)), es, text, default) == r
  {
    var r := MapStringToEnum(input, es, text, default);
    RoundTrip(es, text, default, r);
  }

  /** The (key, value) pairs of a string enum whose keys equal their values, in declaration order. */
  function EntriesOf<E>(members: seq<E>, text: E -> string): (es: seq<Entry<E>>)
    ensures |es| == |members|
    ensures forall i :: 0 <= i < |members| ==> es[i] == Entry(text(members[i]), members[i])
  {
    Seqs.Map((v: E) => Entry(text(v), v), members)
  }

  /** An enum with canonical, distinct names listing every member is well formed. */
  lemma EnumWellFormed<E(!new)>(members: seq<E>, text: E -> string)
    requires forall v :: Canonical(text(v))
    requires forall a, b :: text(a) == text(b) ==> a == b
    requires forall v :: v in members
    ensures WellFormed(EntriesOf(members, text), text)
    ensures forall v :: Listed(EntriesOf(members, text), v)
  {
    var es := EntriesOf(members, text);
    forall v ensures Listed(es, v) {
      assert v in members;
      var i :| 0 <= i < |members| && members[i] == v;
      assert es[i].value == v;
    }
  }

  /** The input, trimmed and upper-cased, is the name of `v`. */
  ghost predicate NamedBy<E>(input: Option<string>, text: E -> string, v: E) {
    input.Some? && Normalize(input.value) == text(v)
  }

  /** `r` is what the decoder must produce: the member the input names, or the default when it names none. */
  ghost predicate Decoded<E(!new)>(input: Option<string>, text: E -> string, r: E, default: E) {
    NamedBy(input, text, r) || (r == default && forall v :: !NamedBy(input, text, v))
  }

  /** Whatever the decoder made of a member's own name is that member. */
  lemma DecodedOwnName<E(!new)>(text: E -> string, v: E, r: E, default: E)
    requires Canonical(text(v)) && forall a, b :: text(a) == text(b) ==> a == b
    requires Decoded(Some(text(v)), text, r, default)
    ensures r == v
  {
    CanonicalUpper(text(v));
    Text.TightTrim(text(v));
    Text.NoLowerToUpper(text(v));
    assert NamedBy(Some(text(v)), text, v);
  }

  /** `mapStringToEnum` meets its specification on every input. */
  lemma DecodeSpec<E(!new)>(input: Option<string>, es: seq<Entry<E>>, text: E -> string, default: E)
    requires WellFormed(es, text) && forall v :: Listed(es, v)
    ensures Decoded(input, text, MapStringToEnum(input, es, text, default), default)
  {
    if exists v :: NamedBy(input, text, v) {
      var v :| NamedBy(input, text, v);
      Recognizes(input.value, es, text, default, v);
    } else if input.Some? {
      forall i | 0 <= i < |es| ensures Normalize(input.value) != text(es[i].value) {
        assert !NamedBy(input, text, es[i].value);
      }
      Rejects(input.value, es, text, default);
    }
  }
}
