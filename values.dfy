/**
 * The Python values that cross the chat layer: the keyword arguments of a
 * completion request, the bodies of responses, and raised exceptions.
 * All of them are JSON-shaped, because both ends of the layer speak JSON.
 */
module Values {
  import opened Wrappers

  /** A JSON-shaped Python value. Floats are only passed through, so they are reals here. */
  datatype Value =
    | JNull
    | JBool(b: bool)
    | JInt(i: int)
    | JFloat(r: real)
    | JString(s: string)
    | JArray(items: seq<Value>)
    | JObject(fields: map<string, Value>)

  /** A raised Python exception: its class name (`type(e).__name__`) and `str(e)`. */
  datatype Error = Error(kind: string, message: string)

  /** `type(v).__name__` for the value `v`. */
  function TypeName(v: Value): string
  {
    match v
    case JNull => "NoneType"
    case JBool(_) => "bool"
    case JInt(_) => "int"
    case JFloat(_) => "float"
    case JString(_) => "str"
    case JArray(_) => "list"
    case JObject(_) => "dict"
  }

  /** Python's truthiness of an `Optional[str]`: `None` and `""` are false. */
  predicate Truthy(s: Option<string>)
  {
    s.Some? && |s.value| > 0
  }

  /** `needle` occurs in `hay` starting at index `i`. */
  predicate OccursAt(needle: string, hay: string, i: nat)
  {
    i + |needle| <= |hay| && hay[i..i + |needle|] == needle
  }

  /** Python's `needle in hay` for two strings: substring search. */
  function IsSubstring(needle: string, hay: string): (b: bool)
    ensures b <==> exists i: nat :: OccursAt(needle, hay, i)
    decreases |hay|
  {
    if |needle| > |hay| then
      assert forall i: nat :: !OccursAt(needle, hay, i);
      false
    else if hay[..|needle|] == needle then
      assert OccursAt(needle, hay, 0);
      true
    else
      var rest := IsSubstring(needle, hay[1..]);
      SubstringShift(needle, hay);
      rest
  }

  /** An occurrence in `hay` that is not at index 0 is an occurrence in `hay[1..]`, and back. */
  lemma SubstringShift(needle: string, hay: string)
    requires |needle| <= |hay| && hay[..|needle|] != needle
    ensures (exists i: nat :: OccursAt(needle, hay, i)) <==> (exists i: nat :: OccursAt(needle, hay[1..], i))
  {
    if exists i: nat :: OccursAt(needle, hay, i) {
      var i: nat :| OccursAt(needle, hay, i);
      assert i != 0;
      assert hay[1..][i - 1..i - 1 + |needle|] == hay[i..i + |needle|];
      assert OccursAt(needle, hay[1..], i - 1);
    }
    if exists i: nat :: OccursAt(needle, hay[1..], i) {
      var i: nat :| OccursAt(needle, hay[1..], i);
      assert hay[i + 1..i + 1 + |needle|] == hay[1..][i..i + |needle|];
      assert OccursAt(needle, hay, i + 1);
    }
  }

  /**
   * Python's `item in container` for a string `item`: key membership for a
   * dict, element equality for a list, substring search for a str. Any
   * other container raises TypeError, which is `None` here.
   */
  function Contains(container: Value, item: string): (r: Option<bool>)
    ensures r.None? <==> container.JNull? || container.JBool? || container.JInt? || container.JFloat?
    ensures container.JObject? ==> r == Some(item in container.fields)
    ensures container.JArray? ==> r == Some(exists k :: 0 <= k < |container.items| && container.items[k] == JString(item))
    ensures container.JString? ==> r == Some(exists i: nat :: OccursAt(item, container.s, i))
  {
    match container
    case JObject(fields) => Some(item in fields)
    case JArray(items) => Some(JString(item) in items)
    case JString(s) => Some(IsSubstring(item, s))
    case _ => None
  }
}
