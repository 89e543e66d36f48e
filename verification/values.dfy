/** The dynamic values the Ruby code passes around: parsed YAML and JSON documents,
    option hashes and attribute bags. Hash keys are strings, because every hash the
    core reads is either loaded from YAML/JSON or wrapped with indifferent access, so
    a symbol key and the string of its name denote the same entry. */
module Values {
  import opened Results
  import Decimal

  datatype Value =
    | Nil
    | Bool(flag: bool)
    | Int(number: int)
    | Str(text: string)
    | List(items: seq<Value>)
    | Hash(fields: map<string, Value>)

  type Fields = map<string, Value>

  /** Ruby truthiness: everything except `nil` and `false`. */
  predicate Truthy(v: Value) {
    !(v.Nil? || v == Bool(false))
  }

  /** `hash[key]`: a missing key reads as `nil`. */
  function Lookup(h: Fields, key: string): Value {
    if key in h then h[key] else Nil
  }

  /** The characters of the POSIX `[[:space:]]` class under Unicode, which ActiveSupport's
      `String#blank?` accepts as blank. */
  predicate IsBlankChar(c: char) {
    c == ' ' || ('\t' <= c <= '\r') || c == '\U{85}' || c == '\U{A0}' || c == '\U{1680}'
    || ('\U{2000}' <= c <= '\U{200A}') || c == '\U{2028}' || c == '\U{2029}' || c == '\U{202F}'
    || c == '\U{205F}' || c == '\U{3000}'
  }

  /** ActiveSupport's `blank?`: nil, false, whitespace-only strings and empty collections. */
  predicate Blank(v: Value) {
    match v
    case Nil => true
    case Bool(b) => !b
    case Int(_) => false
    case Str(s) => forall i | 0 <= i < |s| :: IsBlankChar(s[i])
    case List(xs) => |xs| == 0
    case Hash(m) => |m| == 0
  }

  /** `key` occurs in `s` starting at position `i`. */
  predicate OccursAt(key: string, s: string, i: nat) {
    i + |key| <= |s| && s[i..i + |key|] == key
  }

  /** `key` occurs in `s` as a contiguous substring. */
  predicate Occurs(key: string, s: string) {
    exists i | 0 <= i <= |s| :: OccursAt(key, s, i)
  }

  /** `v[key]` with a string `key`: a hash looks the key up, and a string answers the key
      itself when it occurs in it and nil otherwise, as Ruby's `String#[]` does. Ruby
      raises for any other receiver. */
  function Index(v: Value, key: string): (r: Option<Value>)
    ensures r.Some? <==> v.Hash? || v.Str?
    ensures v.Hash? ==> r == Some(Lookup(v.fields, key))
    ensures v.Hash? && key in v.fields ==> r == Some(v.fields[key])
    ensures v.Str? ==> r.value == Nil || r.value == Str(key)
    ensures v.Str? ==> (r.value == Str(key) <==> Occurs(key, v.text))
  {
    match v
    case Hash(m) => Some(Lookup(m, key))
    case Str(s) => Some(if Occurs(key, s) then Str(key) else Nil)
    case _ => None
  }

  /** The members `collect` visits, where the code expects a list: a list's items, and
      none for an empty hash. A non-empty hash yields `[key, value]` pairs, which no
      caller in this model accepts, and any other value cannot be iterated. */
  function Members(v: Value): (r: Option<seq<Value>>)
    ensures r.Some? <==> v.List? || v == Hash(map[])
    ensures v.List? ==> r == Some(v.items)
    ensures r.Some? && !v.List? ==> r == Some([])
  {
    match v
    case List(xs) => Some(xs)
    case Hash(m) => if |m| == 0 then Some([]) else None
    case _ => None
  }

  /** String interpolation `"#{v}"` of a scalar; lists and hashes (rendered by Ruby with
      their `inspect` form) are not rendered by this model. */
  function Render(v: Value): Option<string> {
    match v
    case Nil => Some("")
    case Bool(b) => Some(if b then "true" else "false")
    case Int(n) => Some(Decimal.Show(n))
    case Str(s) => Some(s)
    case List(_) => None
    case Hash(_) => None
  }

  /** The ways the modelled code can fail. */
  datatype Error =
      /** The inventory provider answered with `success: false`; carries its `error`. */
    | BoxchiefError(detail: Value)
      /** Neither template file of a kube spec exists. */
    | KubeFileNotFound
      /** A referenced image has a blank `tag`; carries the image's `id`. */
    | MissingImageTag(image: Value)
      /** A value of the wrong shape, where Ruby raises NoMethodError or TypeError. */
    | TypeMismatch(context: string)

  type Outcome<T> = Result<T, Error>

  /** The message the source raises for each of its own errors. */
  function Message(e: Error): Option<string> {
    match e
    case BoxchiefError(d) =>
      (match Render(d)
       case Some(t) => Some("Boxchief Error: " + t)
       case None => None)
    case KubeFileNotFound => Some("Kube config file could not be found.")
    case MissingImageTag(id) =>
      (match Render(id)
       case Some(t) => Some("Image " + t + " does not have a known tag set.")
       case None => None)
    case TypeMismatch(_) => None
  }
}
