// Restriction of an object's described fields to the names the user listed
// in `limit_entity_fields`.

module FieldRestriction {
  import opened Records

  /** The fields whose name is in `keep`, in their original order
      (`obj_fields.keep_if {|f| keep.member?(f['name'])}`). */
  function KeepIf(fields: seq<Field>, keep: set<string>): (kept: seq<Field>)
    ensures |kept| <= |fields|
    ensures forall f :: f in kept <==> f in fields && f.name in keep
    ensures forall f :: multiset(kept)[f] == if f.name in keep then multiset(fields)[f] else 0
  {
    if |fields| == 0 then []
    else
      assert fields == [fields[0]] + fields[1..];
      (if fields[0].name in keep then [fields[0]] else []) + KeepIf(fields[1..], keep)
  }

  /** `a` is `b` with some elements dropped and the rest in the same order. */
  predicate IsSubsequence(a: seq<Field>, b: seq<Field>)
    decreases |b|
  {
    if |a| == 0 then true
    else if |b| == 0 then false
    else if a[0] == b[0] then IsSubsequence(a[1..], b[1..])
    else IsSubsequence(a, b[1..])
  }

  /** Restriction keeps the original relative order and adds nothing. */
  lemma {:induction false} KeepIfIsSubsequence(fields: seq<Field>, keep: set<string>)
    ensures IsSubsequence(KeepIf(fields, keep), fields)
    decreases |fields|
  {
    if |fields| > 0 {
      KeepIfIsSubsequence(fields[1..], keep);
      if fields[0].name in keep {
        assert KeepIf(fields, keep) == [fields[0]] + KeepIf(fields[1..], keep);
      } else {
        assert KeepIf(fields, keep) == KeepIf(fields[1..], keep);
      }
    }
  }

  /** Restricting twice to the same names changes nothing the second time. */
  lemma {:induction false} KeepIfIdempotent(fields: seq<Field>, keep: set<string>)
    ensures KeepIf(KeepIf(fields, keep), keep) == KeepIf(fields, keep)
    decreases |fields|
  {
    if |fields| > 0 {
      KeepIfIdempotent(fields[1..], keep);
      var rest := KeepIf(fields[1..], keep);
      var kept := KeepIf(fields, keep);
      if fields[0].name in keep {
        assert kept == [fields[0]] + rest;
        assert kept[0] == fields[0] && kept[1..] == rest;
        assert KeepIf(kept, keep) == [kept[0]] + KeepIf(kept[1..], keep);
      } else {
        assert kept == rest;
      }
    }
  }

  /** The requested names of an object, when `limit_entity_fields` is given and
      has an entry for it. */
  function UserFields(limits: Option<map<string, seq<string>>>, obj: string): Option<seq<string>>
  {
    if limits.Some? && obj in limits.value then Some(limits.value[obj]) else None
  }

  /** The requested names that the object does not have. */
  function Unavailable(fields: seq<Field>, requested: seq<string>): (missing: set<string>)
    ensures forall n :: n in missing <==> n in requested && n !in NameSet(fields)
  {
    ToSet(requested) - NameSet(fields)
  }

  /** The restriction step of `download` for one object: no list leaves the
      fields as they are; a list with an unknown name is an error; otherwise the
      fields are filtered to the requested names. */
  function RestrictFields(fields: seq<Field>, requested: Option<seq<string>>): (r: Result<seq<Field>, set<string>>)
    ensures requested.None? ==> r == Ok(fields)
    ensures r.Err? <==> requested.Some? && exists n :: n in requested.value && n !in NameSet(fields)
    ensures r.Err? ==> r.error != {} && forall n :: n in r.error <==> n in requested.value && n !in NameSet(fields)
  {
    match requested
    case None => Ok(fields)
    case Some(names) =>
      var missing := Unavailable(fields, names);
      if missing != {} then Err(missing) else Ok(KeepIf(fields, ToSet(names)))
  }

  /** A successful restriction with a list is exactly the fields named in the
      list, in their original order: a subsequence whose names are the
      requested ones, every requested name present. */
  lemma RestrictedFieldsAreRequested(fields: seq<Field>, requested: seq<string>)
    requires RestrictFields(fields, Some(requested)).Ok?
    ensures var kept := RestrictFields(fields, Some(requested)).value;
            && kept == KeepIf(fields, ToSet(requested))
            && IsSubsequence(kept, fields)
            && NameSet(kept) == ToSet(requested)
  {
    var kept := KeepIf(fields, ToSet(requested));
    KeepIfIsSubsequence(fields, ToSet(requested));
    forall n | n in ToSet(requested) ensures n in NameSet(kept) {
      var f :| f in fields && f.name == n;
      assert f in kept;
    }
  }

  /** Restricting an already restricted list to the same request succeeds and
      gives the same list; so an object listed twice is restricted once. */
  lemma RestrictAgain(fields: seq<Field>, requested: Option<seq<string>>)
    requires RestrictFields(fields, requested).Ok?
    ensures var kept := RestrictFields(fields, requested).value;
            RestrictFields(kept, requested) == Ok(kept)
  {
    if requested.Some? {
      RestrictedFieldsAreRequested(fields, requested.value);
      KeepIfIdempotent(fields, ToSet(requested.value));
    }
  }
}
