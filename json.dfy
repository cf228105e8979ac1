/**
 * JSON values as `json.loads` returns them, and the bracket span the critic
 * and the suggester cut out of a model's reply before parsing it. The parser
 * itself is not modelled: callers receive it as a function from text to an
 * optional value.
 */
module Json {
  import opened Wrappers
  import opened Text

  /** `JInt` is a number written without fraction or exponent, which `json.loads` makes an `int`; `JNumber` is a `float`. */
  datatype Json =
    | JNull
    | JBool(b: bool)
    | JInt(i: int)
    | JNumber(n: real)
    | JString(s: string)
    | JArray(items: seq<Json>)
    | JObject(fields: map<string, Json>)

  /** `json.loads`: a parse of the text, or `None` when it raises. */
  type Parser = string -> Option<Json>

  /**
   * The library routines the optimizer's components rely on: `json.loads`,
   * `float()` on a string, the `:.2f` and `:.3f` renderings of a float, and
   * `str()` of a value.
   */
  datatype Host = Host(
    parse: Parser,
    readFloat: string -> Option<real>,
    fixed2: real -> string,
    fixed3: real -> string,
    str: Json -> string)

  /** `text` holds `open` at or before some `close`. */
  predicate HasSpan(text: string, open: char, close: char)
  {
    exists i, j :: 0 <= i <= j < |text| && text[i] == open && text[j] == close
  }

  /**
   * `span` sits in `text` at `i`, starts with `open` and ends with `close`;
   * no `open` comes before it and no `close` after it.
   */
  predicate OutermostSpan(text: string, span: string, i: int, open: char, close: char)
  {
    OccursAt(text, span, i) && |span| >= 1 && span[0] == open && span[|span| - 1] == close &&
    (forall k :: 0 <= k < i ==> text[k] != open) &&
    (forall k :: i + |span| <= k < |text| ==> text[k] != close)
  }

  lemma OccursAtChar(text: string, c: char, k: int)
    ensures OccursAt(text, [c], k) <==> 0 <= k < |text| && text[k] == c
  {
    if 0 <= k < |text| {
      assert text[k..k + 1] == [text[k]];
    }
  }

  /**
   * `text[text.find(open) : text.rfind(close) + 1]`, taken only when the
   * start was found and the end lies after it.
   */
  function BracketSpan(text: string, open: char, close: char): (r: Option<string>)
    ensures r.Some? <==> HasSpan(text, open, close)
    ensures r.Some? ==> exists i :: OutermostSpan(text, r.value, i, open, close)
  {
    var start := Find(text, [open]);
    var end := RFind(text, [close]) + 1;
    OccursAtChar(text, open, start);
    OccursAtChar(text, close, end - 1);
    assert forall k :: 0 <= k < |text| && text[k] == open ==> start >= 0 && start <= k by {
      forall k | 0 <= k < |text| && text[k] == open ensures start >= 0 && start <= k {
        OccursAtChar(text, open, k);
      }
    }
    assert forall k :: 0 <= k < |text| && text[k] == close ==> end - 1 >= k by {
      forall k | 0 <= k < |text| && text[k] == close ensures end - 1 >= k {
        OccursAtChar(text, close, k);
      }
    }
    if start >= 0 && end > start then
      var span := text[start..end];
      assert OccursAt(text, span, start);
      assert OutermostSpan(text, span, start, open, close);
      Some(span)
    else
      None
  }

  /** Python's truth value of a JSON value: false for `None`, `False`, zero and empty containers. */
  predicate Truthy(v: Json)
  {
    match v
    case JNull => false
    case JBool(b) => b
    case JInt(i) => i != 0
    case JNumber(n) => n != 0.0
    case JString(s) => s != ""
    case JArray(items) => items != []
    case JObject(fields) => fields != map[]
  }

  /** A value used where text is expected: a string as itself, anything else as `str()` renders it. */
  function TextOf(v: Json, host: Host): string
  {
    if v.JString? then v.s else host.str(v)
  }

  /** `float(v)` on a JSON value: numbers, booleans, and strings the given reader accepts. */
  function FloatOf(v: Json, readFloat: string -> Option<real>): (r: Option<real>)
    ensures v.JNumber? ==> r == Some(v.n)
    ensures v.JInt? ==> r == Some(v.i as real)
    ensures (v.JNull? || v.JArray? || v.JObject?) ==> r == None
  {
    match v
    case JInt(i) => Some(i as real)
    case JNumber(n) => Some(n)
    case JBool(b) => Some(if b then 1.0 else 0.0)
    case JString(s) => readFloat(s)
    case _ => None
  }

  /** `type(v).__name__` of the Python value `json.loads` makes of `v`. */
  function TypeName(v: Json): string
  {
    match v
    case JNull => "NoneType"
    case JBool(_) => "bool"
    case JInt(_) => "int"
    case JNumber(_) => "float"
    case JString(_) => "str"
    case JArray(_) => "list"
    case JObject(_) => "dict"
  }

  /** Python's `TypeError` text for a loop over a value that cannot be iterated. */
  function NotIterableText(v: Json): string
  {
    "'" + TypeName(v) + "' object is not iterable"
  }

  /** The text of the `TypeError` a string indexed by a string raises (Python 3.11 and later). */
  const StringIndexText: string := "string indices must be integers, not 'str'"

  /** The text of the `AttributeError` that `.get` on a string raises. */
  const StrGetText: string := "'str' object has no attribute 'get'"

  /** A loop can go over the value: a string (its characters), a list, or a dictionary (its keys). */
  predicate Iterable(v: Json)
  {
    v.JString? || v.JArray? || v.JObject?
  }
}
