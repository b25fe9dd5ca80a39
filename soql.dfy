// SOQL text built by `construct_query`: a SELECT list joined by ", ", the object
// name, and an optional half-open CreatedDate window.

module Soql {
  import opened Records

  /** `xs.join(sep)` in Ruby: the parts with `sep` between neighbours. */
  function Join(xs: seq<string>, sep: string): string
  {
    if |xs| == 0 then ""
    else if |xs| == 1 then xs[0]
    else xs[0] + sep + Join(xs[1..], sep)
  }

  /** Splits `s` at every occurrence of `sep`, scanning left to right; the
      partner of Join used to show that the SELECT list can be read back. */
  function Split(s: string, sep: string): (parts: seq<string>)
    requires |sep| > 0
    ensures |parts| >= 1
    decreases |s|
  {
    if |s| == 0 then [""]
    else if sep <= s then [""] + Split(s[|sep|..], sep)
    else
      var rest := Split(s[1..], sep);
      [[s[0]] + rest[0]] + rest[1..]
  }

  const ListSeparator: string := ", "

  /** "SELECT <names joined by ', '> FROM <obj>", no quoting of identifiers. */
  function BaseQuery(obj: string, names: seq<string>): string
  {
    "SELECT " + Join(names, ListSeparator) + " FROM " + obj
  }

  /** `construct_query(obj, fields, created_from, created_to)`: the early returns
      of the source, in their order. The bounds are the already rendered
      (`to_s`) values; an absent bound is Ruby's nil. */
  function ConstructQuery(obj: string, names: seq<string>, createdFrom: Option<string>,
                          createdTo: Option<string>): string
  {
    var base := BaseQuery(obj, names);
    if createdFrom.Some? && createdTo.Some? then
      base + " WHERE CreatedDate >= " + createdFrom.value + " AND CreatedDate < " + createdTo.value
    else if createdFrom.Some? then
      base + " WHERE CreatedDate >= " + createdFrom.value
    else if createdTo.Some? then
      base + " WHERE CreatedDate < " + createdTo.value
    else
      base
  }

  /** The conditions of the window, one per bound that is present, lower first. */
  function WindowConditions(createdFrom: Option<string>, createdTo: Option<string>): (conds: seq<string>)
    ensures |conds| == (if createdFrom.Some? then 1 else 0) + (if createdTo.Some? then 1 else 0)
  {
    (if createdFrom.Some? then ["CreatedDate >= " + createdFrom.value] else [])
    + (if createdTo.Some? then ["CreatedDate < " + createdTo.value] else [])
  }

  /** The WHERE clause as "the conjunction of the present bounds", independent
      of the cascade of early returns. */
  function WindowFilter(createdFrom: Option<string>, createdTo: Option<string>): string
  {
    var conds := WindowConditions(createdFrom, createdTo);
    if |conds| == 0 then "" else " WHERE " + Join(conds, " AND ")
  }

  lemma BothBoundsConjunction(from: string, to: string)
    ensures WindowFilter(Some(from), Some(to))
            == " WHERE " + (("CreatedDate >= " + from) + " AND " + ("CreatedDate < " + to))
  {
    var c1, c2 := "CreatedDate >= " + from, "CreatedDate < " + to;
    assert WindowConditions(Some(from), Some(to)) == [c1, c2];
    assert [c1, c2][1..] == [c2];
    assert Join([c1, c2], " AND ") == c1 + " AND " + Join([c2], " AND ");
    assert Join([c2], " AND ") == c2;
  }

  lemma BothBoundsFilter(base: string, from: string, to: string)
    ensures base + " WHERE CreatedDate >= " + from + " AND CreatedDate < " + to
            == base + WindowFilter(Some(from), Some(to))
  {
    BothBoundsConjunction(from, to);
    assert " WHERE " + "CreatedDate >= " == " WHERE CreatedDate >= ";
    assert " AND " + "CreatedDate < " == " AND CreatedDate < ";
  }

  lemma FromBoundFilter(base: string, from: string)
    ensures base + " WHERE CreatedDate >= " + from == base + WindowFilter(Some(from), None)
  {
    assert WindowConditions(Some(from), None) == ["CreatedDate >= " + from];
    calc {
      base + WindowFilter(Some(from), None);
      base + (" WHERE " + ("CreatedDate >= " + from));
      base + (" WHERE " + "CreatedDate >= ") + from;
    }
  }

  lemma ToBoundFilter(base: string, to: string)
    ensures base + " WHERE CreatedDate < " + to == base + WindowFilter(None, Some(to))
  {
    assert WindowConditions(None, Some(to)) == ["CreatedDate < " + to];
    calc {
      base + WindowFilter(None, Some(to));
      base + (" WHERE " + ("CreatedDate < " + to));
      base + (" WHERE " + "CreatedDate < ") + to;
    }
  }

  /** The cascade of early returns in `construct_query` is the base query
      followed by the conjunction of exactly the bounds that are present:
      both, only `from`, only `to`, or none (then the base query unchanged). */
  lemma ConstructQueryIsBaseAndWindow(obj: string, names: seq<string>,
                                      createdFrom: Option<string>, createdTo: Option<string>)
    ensures ConstructQuery(obj, names, createdFrom, createdTo)
            == BaseQuery(obj, names) + WindowFilter(createdFrom, createdTo)
    ensures ConstructQuery(obj, names, createdFrom, createdTo) == BaseQuery(obj, names)
            <==> createdFrom.None? && createdTo.None?
  {
    var base := BaseQuery(obj, names);
    if createdFrom.Some? && createdTo.Some? {
      BothBoundsFilter(base, createdFrom.value, createdTo.value);
    } else if createdFrom.Some? {
      FromBoundFilter(base, createdFrom.value);
    } else if createdTo.Some? {
      ToBoundFilter(base, createdTo.value);
    } else {
      assert base + "" == base;
    }
    if createdFrom.Some? || createdTo.Some? {
      assert |WindowFilter(createdFrom, createdTo)| > 0;
    }
  }

  /** Splitting text that starts with a chunk free of the separator's first
      character leaves that chunk glued to the first part of the rest. */
  lemma {:induction false} SplitAfterChunk(x: string, t: string, sep: string)
    requires |sep| > 0
    requires sep[0] !in x
    ensures Split(x + t, sep) == [x + Split(t, sep)[0]] + Split(t, sep)[1..]
    decreases |x|
  {
    if |x| == 0 {
      assert x + t == t;
      var r := Split(t, sep);
      assert x + r[0] == r[0];
      assert [r[0]] + r[1..] == r;
    } else {
      var s := x + t;
      assert s[0] == x[0] && s[0] != sep[0];
      assert !(sep <= s);
      assert s[1..] == x[1..] + t;
      SplitAfterChunk(x[1..], t, sep);
      assert [s[0]] + (x[1..] + Split(t, sep)[0]) == x + Split(t, sep)[0];
    }
  }

  /** Joining names that do not contain the separator's first character can be
      undone by splitting: the SELECT list of the query determines the field
      names and their order. */
  lemma {:induction false} SplitJoinRoundTrip(xs: seq<string>, sep: string)
    requires |sep| > 0 && |xs| > 0
    requires forall i :: 0 <= i < |xs| ==> sep[0] !in xs[i]
    ensures Split(Join(xs, sep), sep) == xs
    decreases |xs|
  {
    if |xs| == 1 {
      SplitAfterChunk(xs[0], "", sep);
      assert xs[0] + "" == xs[0];
    } else {
      var rest := Join(xs[1..], sep);
      assert Join(xs, sep) == xs[0] + (sep + rest);
      SplitAfterChunk(xs[0], sep + rest, sep);
      assert sep <= sep + rest;
      assert (sep + rest)[|sep|..] == rest;
      SplitJoinRoundTrip(xs[1..], sep);
      assert Split(sep + rest, sep) == [""] + xs[1..];
      assert xs[0] + "" == xs[0];
    }
  }

  /** Any text after the base query leaves "SELECT " and the list in front. */
  lemma SelectListLeadsQuery(obj: string, names: seq<string>, rest: string)
    ensures "SELECT " + Join(names, ListSeparator) <= BaseQuery(obj, names) + rest
  {
    var head := "SELECT " + Join(names, ListSeparator);
    var q := BaseQuery(obj, names) + rest;
    assert q == head + (" FROM " + obj + rest);
    assert q[..|head|] == head;
  }

  /** Every query, whatever its names and bounds, starts with "SELECT " and
      the names joined by ", " in the given order. */
  lemma QueryStartsWithSelectList(obj: string, names: seq<string>, createdFrom: Option<string>,
                                  createdTo: Option<string>)
    ensures "SELECT " + Join(names, ListSeparator) <= ConstructQuery(obj, names, createdFrom, createdTo)
  {
    ConstructQueryIsBaseAndWindow(obj, names, createdFrom, createdTo);
    SelectListLeadsQuery(obj, names, WindowFilter(createdFrom, createdTo));
  }

  /** Read back from the query text: the field list after "SELECT " splits
      into exactly the names given, in order, when none contains ','. */
  lemma SelectListRoundTrip(obj: string, names: seq<string>, createdFrom: Option<string>,
                            createdTo: Option<string>)
    requires |names| > 0
    requires forall i :: 0 <= i < |names| ==> ',' !in names[i]
    ensures var q := ConstructQuery(obj, names, createdFrom, createdTo);
            var list := Join(names, ListSeparator);
            && "SELECT " + list <= q
            && Split(list, ListSeparator) == names
  {
    assert ListSeparator[0] == ',';
    SplitJoinRoundTrip(names, ListSeparator);
    QueryStartsWithSelectList(obj, names, createdFrom, createdTo);
  }

  /** Joining does not mark where a part ends: a part that contains the
      separator joins to the same text as the two parts it separates. */
  lemma {:induction false} JoinForgetsBoundaries(xs: seq<string>, a: string, b: string,
                                                 ys: seq<string>, sep: string)
    ensures Join(xs + [a + sep + b] + ys, sep) == Join(xs + [a, b] + ys, sep)
    decreases |xs|
  {
    if |xs| == 0 {
      assert xs + [a + sep + b] + ys == [a + sep + b] + ys;
      assert xs + [a, b] + ys == [a] + ([b] + ys);
      assert ([a] + ([b] + ys))[1..] == [b] + ys;
      if |ys| == 0 {
        assert Join([b] + ys, sep) == b;
      } else {
        assert ([a + sep + b] + ys)[1..] == ys;
        assert ([b] + ys)[1..] == ys;
        assert Join([b] + ys, sep) == b + sep + Join(ys, sep);
      }
    } else {
      JoinForgetsBoundaries(xs[1..], a, b, ys, sep);
      assert (xs + [a + sep + b] + ys)[1..] == xs[1..] + [a + sep + b] + ys;
      assert (xs + [a, b] + ys)[1..] == xs[1..] + [a, b] + ys;
    }
  }

  /** No escaping: for any field lists, a name that contains ", " gives the
      same query as the two names on either side of it, so the SELECT list
      can only be read back when no name contains a comma. */
  lemma NamesAreNotEscaped(obj: string, xs: seq<string>, a: string, b: string, ys: seq<string>)
    ensures BaseQuery(obj, xs + [a + ", " + b] + ys) == BaseQuery(obj, xs + [a, b] + ys)
    ensures xs + [a + ", " + b] + ys != xs + [a, b] + ys
  {
    JoinForgetsBoundaries(xs, a, b, ys, ListSeparator);
    assert |xs + [a + ", " + b] + ys| < |xs + [a, b] + ys|;
  }
}
