/**
 * The annotation value type (src/api/app/schemas/annotation.py): a finding
 * with a validated kind, and its projection to a JSON-like dictionary.
 */
module AnnotationSchema {
  import opened Wrappers

  /** A JSON scalar as stored in the dictionaries of the document. */
  datatype Value = Str(s: string) | Int(i: int)

  /** A JSON object. */
  type Dict = map<string, Value>

  const Kinds: set<string> := {"info", "error", "warning"}

  predicate ValidKind(kind: string) {
    kind in Kinds
  }

  /** The stored fields of an annotation; `kind` is the source's `type`. */
  datatype Annotation = Annotation(
    kind: string,
    category: string,
    message: string,
    startSeconds: int,
    endSeconds: int)

  /**
   * The constructor: it fails (an assertion error) unless the kind is one of
   * the three valid kinds; every other field is stored unchecked.
   */
  function NewAnnotation(kind: string, category: string, message: string,
                         startSeconds: int, endSeconds: int): (r: Option<Annotation>)
    ensures r.Some? <==> ValidKind(kind)
    ensures r.Some? ==> r.value.kind == kind && r.value.category == category
                        && r.value.message == message
                        && r.value.startSeconds == startSeconds
                        && r.value.endSeconds == endSeconds
  {
    if kind in Kinds then Some(Annotation(kind, category, message, startSeconds, endSeconds))
    else None
  }

  /** The keys of `to_dict`'s result. */
  const DictKeys: set<string> := {"type", "category", "message", "start_seconds", "end_seconds"}

  function ToDict(a: Annotation): Dict {
    map["type" := Str(a.kind), "category" := Str(a.category), "message" := Str(a.message),
        "start_seconds" := Int(a.startSeconds), "end_seconds" := Int(a.endSeconds)]
  }

  /** Reads an annotation back from a dictionary of exactly the `to_dict` shape. */
  function FromDict(d: Dict): Option<Annotation> {
    if d.Keys == DictKeys && d["type"].Str? && d["category"].Str? && d["message"].Str?
       && d["start_seconds"].Int? && d["end_seconds"].Int?
    then Some(Annotation(d["type"].s, d["category"].s, d["message"].s,
                         d["start_seconds"].i, d["end_seconds"].i))
    else None
  }

  /** The `type` entry of a dictionary holds one of the three valid kinds. */
  predicate HasValidType(d: Dict) {
    "type" in d && d["type"].Str? && ValidKind(d["type"].s)
  }

  /** `to_dict` holds exactly the five keys, and reading them back gives the annotation. */
  lemma ToDictRoundTrip(a: Annotation)
    ensures ToDict(a).Keys == DictKeys
    ensures FromDict(ToDict(a)) == Some(a)
  {
  }

  /** Conversely, any dictionary that reads back as an annotation is that annotation's `to_dict`. */
  lemma FromDictToDict(d: Dict, a: Annotation)
    requires FromDict(d) == Some(a)
    ensures ToDict(a) == d
  {
    var e := ToDict(a);
    assert e.Keys == d.Keys;
    forall k | k in d ensures e[k] == d[k] {
    }
  }

  /** The `type` entry of `to_dict` of an annotation built by the constructor is valid. */
  lemma ToDictTypeValid(kind: string, category: string, message: string, startSeconds: int, endSeconds: int)
    requires NewAnnotation(kind, category, message, startSeconds, endSeconds).Some?
    ensures HasValidType(ToDict(NewAnnotation(kind, category, message, startSeconds, endSeconds).value))
  {
  }

  /** The constructor does not enforce start <= end. */
  lemma StartAfterEndAccepted()
    ensures NewAnnotation("info", "funnel", "", 5, 1).Some?
  {
  }
}
