/**
 * The Python values that stored content blocks hold and that the settings
 * endpoint hands to the JSON renderer: image objects, mappings (dicts and
 * Wagtail's StructValue), sequences (lists and tuples) and everything else,
 * which the serializer never looks into.
 */
module Values {
  import opened Wrappers

  /** An image record as the CMS stores it; `fileUrl` is `image.file.url`. */
  datatype Image = Image(id: int, title: string, width: int, height: int, fileUrl: string)

  /** Leaf values: `None`, booleans, integers, strings, and any other object
      (rich text, a page, a date ...), identified only by an opaque tag. */
  datatype Atom = Null | Bool(b: bool) | Int(i: int) | Str(s: string) | Other(tag: string)

  /** The two Python sequence types that the serializer treats alike. */
  datatype SeqKind = List | Tuple

  datatype Value =
    | Img(image: Image)
    | Mapping(entries: seq<(string, Value)>)
    | Sequence(kind: SeqKind, items: seq<Value>)
    | Scalar(atom: Atom)

  /** The keys of a mapping, in insertion order. */
  function Keys(entries: seq<(string, Value)>): (ks: seq<string>)
    ensures |ks| == |entries|
    ensures forall i :: 0 <= i < |entries| ==> ks[i] == entries[i].0
  {
    seq(|entries|, i requires 0 <= i < |entries| => entries[i].0)
  }

  /** Dictionary lookup: the value stored under `k`, if any. */
  function Get(entries: seq<(string, Value)>, k: string): (r: Option<Value>)
    ensures r.None? <==> k !in Keys(entries)
  {
    if |entries| == 0 then None
    else if entries[0].0 == k then Some(entries[0].1)
    else
      assert Keys(entries) == [entries[0].0] + Keys(entries[1..]);
      Get(entries[1..], k)
  }

  /** Looking up the key at position `i` finds the value at `i` when no
      earlier entry has that key. */
  lemma {:induction false} GetAt(entries: seq<(string, Value)>, i: int)
    requires 0 <= i < |entries|
    requires forall j :: 0 <= j < i ==> entries[j].0 != entries[i].0
    ensures Get(entries, entries[i].0) == Some(entries[i].1)
  {
    if i > 0 {
      GetAt(entries[1..], i - 1);
    }
  }

  /** Python dictionaries never hold a key twice. */
  predicate DistinctKeys(entries: seq<(string, Value)>) {
    forall i, j :: 0 <= i < j < |entries| ==> entries[i].0 != entries[j].0
  }

  /** In a mapping with distinct keys, every entry is what its key finds. */
  lemma GetDistinct(entries: seq<(string, Value)>, i: int)
    requires 0 <= i < |entries| && DistinctKeys(entries)
    ensures Get(entries, entries[i].0) == Some(entries[i].1)
  {
    GetAt(entries, i);
  }

  /** Every mapping in the tree has distinct keys, as every real dict does. */
  predicate WellFormed(v: Value) {
    match v
    case Img(_) => true
    case Mapping(es) => DistinctKeys(es) && forall i :: 0 <= i < |es| ==> WellFormed(es[i].1)
    case Sequence(_, xs) => forall i :: 0 <= i < |xs| ==> WellFormed(xs[i])
    case Scalar(_) => true
  }

  /** The shape the settings serializer produces: no image object and no
      tuple anywhere in the tree. */
  predicate Serialized(v: Value) {
    match v
    case Img(_) => false
    case Mapping(es) => forall i :: 0 <= i < |es| ==> Serialized(es[i].1)
    case Sequence(k, xs) => k == List && forall i :: 0 <= i < |xs| ==> Serialized(xs[i])
    case Scalar(_) => true
  }
}
