// Values and records shared by the Salesforce downloader model.

module Records {

  datatype Option<T> = None | Some(value: T)

  datatype Result<T, E> = Ok(value: T) | Err(error: E)

  /** One described field of a Salesforce object: the record `get_fields` builds
      from `describe` ({'name', 'type', 'human_name'}). */
  datatype Field = Field(name: string, fieldType: string, humanName: string)

  /** A value as the REST API hands it back in a row (a Ruby object):
      nil, a scalar, a hash or an array. Floating point numbers are not modelled. */
  datatype Value =
    | Nil
    | Str(s: string)
    | Bool(b: bool)
    | Num(n: int)
    | Hash(entries: map<string, Value>)
    | Array(items: seq<Value>)

  /** The explicit-null marker the API sends inside an array: {"xsi:nil" => "true"}. */
  const NilMarker: Value := Hash(map["xsi:nil" := Str("true")])

  /** One row of the REST result, keyed by field name. */
  type Row = map<string, Value>

  /** The field names, in field order (`fields.map {|f| f['name']}`). */
  function Names(fields: seq<Field>): (names: seq<string>)
    ensures |names| == |fields|
    ensures forall i :: 0 <= i < |fields| ==> names[i] == fields[i].name
  {
    seq(|fields|, i requires 0 <= i < |fields| => fields[i].name)
  }

  /** The set of field names (`Set.new(obj_fields.map { |f| f['name'] })`). */
  function NameSet(fields: seq<Field>): (s: set<string>)
    ensures forall n :: n in s <==> exists f :: f in fields && f.name == n
  {
    set f | f in fields :: f.name
  }

  /** The elements of a list as a set (`Set.new(list)`). */
  function ToSet(xs: seq<string>): (s: set<string>)
    ensures forall x :: x in s <==> x in xs
  {
    set x | x in xs
  }
}
