/** The filter form of web/src/app/links/LinksPageClient.tsx: the tag
    parser, the filters read from the URL (`active`), and `applyFilters` /
    `clearFilters`, which replace the URL's query. */
module LinksPage {
  import opened Wrappers
  import opened Strings
  import opened Seqs

  // ---------------------------------------------------------------------
  // Tag input
  // ---------------------------------------------------------------------

  /** A character of the separator class `[\s,]`. */
  predicate IsTagSeparator(c: char) {
    IsSpace(c) || c == ','
  }

  predicate NoSeparator(s: string) {
    forall i :: 0 <= i < |s| ==> !IsTagSeparator(s[i])
  }

  /** The longest prefix of `s` without a separator. */
  function Word(s: string): (w: string)
    ensures w <= s && NoSeparator(w)
    ensures |w| < |s| ==> IsTagSeparator(s[|w|])
  {
    if s == [] || IsTagSeparator(s[0]) then [] else [s[0]] + Word(s[1..])
  }

  /** The non-empty pieces of `s.split(/[\s,]+/)`: the maximal runs of
      non-separators, left to right. (The split itself also yields an empty
      first or last piece when `s` starts or ends with a separator; the
      `filter(Boolean)` that follows drops exactly those.) */
  function Fields(s: string): (r: seq<string>)
    ensures forall i :: 0 <= i < |r| ==> r[i] != "" && NoSeparator(r[i])
    decreases |s|
  {
    if s == [] then []
    else if IsTagSeparator(s[0]) then Fields(s[1..])
    else
      var w := Word(s);
      [w] + Fields(s[|w|..])
  }

  lemma FieldsAreTrimmed(fields: seq<string>)
    requires forall i :: 0 <= i < |fields| ==> fields[i] != "" && NoSeparator(fields[i])
    ensures forall i :: 0 <= i < |fields| ==> Trim(fields[i]) == fields[i]
    ensures TrimmedNonEmpty(fields) == fields
  {
    forall i | 0 <= i < |fields| ensures Trim(fields[i]) == fields[i] {
      NoSpaceIsTrimmed(fields[i]);
    }
    TrimmedNonEmptyOfTrimmed(fields);
  }

  lemma DedupedFields(fields: seq<string>)
    requires forall i :: 0 <= i < |fields| ==> fields[i] != "" && NoSeparator(fields[i]) && Trim(fields[i]) == fields[i]
    ensures var r := FirstOccurrences(fields);
            forall i :: 0 <= i < |r| ==> r[i] != "" && NoSeparator(r[i]) && Trim(r[i]) == r[i]
  {
    var r := FirstOccurrences(fields);
    forall i | 0 <= i < |r| ensures r[i] != "" && NoSeparator(r[i]) && Trim(r[i]) == r[i] {
      assert r[i] in fields;
    }
  }

  /** `parseTagsInput`: split on runs of whitespace and commas, trim, drop
      empties, keep the first occurrence of each tag. */
  function ParseTagsInput(input: string): (tags: seq<string>)
    ensures tags == FirstOccurrences(Fields(input))
    ensures Distinct(tags)
    ensures forall i :: 0 <= i < |tags| ==> tags[i] != "" && NoSeparator(tags[i]) && Trim(tags[i]) == tags[i]
  {
    var fields := Fields(input);
    FieldsAreTrimmed(fields);
    var r := FirstOccurrences(TrimmedNonEmpty(fields));
    DedupedFields(fields);
    assert r == FirstOccurrences(fields);
    r
  }

  /** `tags.join(", ")`, the text the tag input starts from. */
  function JoinTags(tags: seq<string>): string {
    if |tags| == 0 then ""
    else if |tags| == 1 then tags[0]
    else tags[0] + ", " + JoinTags(tags[1..])
  }

  lemma {:induction false} WordOf(w: string, rest: string)
    requires NoSeparator(w)
    requires rest == [] || IsTagSeparator(rest[0])
    ensures Word(w + rest) == w
  {
    if w == [] {
      assert w + rest == rest;
    } else {
      var s := w + rest;
      assert s[0] == w[0] && !IsTagSeparator(s[0]);
      assert s[1..] == w[1..] + rest;
      WordOf(w[1..], rest);
      assert Word(s) == [s[0]] + Word(s[1..]);
      assert w == [w[0]] + w[1..];
    }
  }

  lemma {:induction false} FieldsOfJoin(tags: seq<string>)
    requires forall i :: 0 <= i < |tags| ==> tags[i] != "" && NoSeparator(tags[i])
    ensures Fields(JoinTags(tags)) == tags
  {
    if |tags| == 1 {
      WordOf(tags[0], []);
      assert tags[0] + [] == tags[0];
      assert JoinTags(tags)[|tags[0]|..] == [];
    } else if |tags| > 1 {
      var rest := JoinTags(tags[1..]);
      var s := tags[0] + (", " + rest);
      assert JoinTags(tags) == s;
      WordOf(tags[0], ", " + rest);
      assert s[0] == tags[0][0] && !IsTagSeparator(s[0]);
      assert s[|tags[0]|..] == ", " + rest;
      assert Fields(s) == [tags[0]] + Fields(", " + rest);
      assert (", " + rest)[1..] == " " + rest;
      assert (" " + rest)[1..] == rest;
      assert Fields(", " + rest) == Fields(" " + rest) == Fields(rest);
      FieldsOfJoin(tags[1..]);
      assert tags == [tags[0]] + tags[1..];
    }
  }

  /** A word without separators is one field. */
  lemma FieldsOfWord(w: string)
    requires w != "" && NoSeparator(w)
    ensures Fields(w) == [w]
  {
    WordOf(w, []);
    assert w + [] == w;
    assert w[|w|..] == [];
  }

  /** A word that stops before the end of `a` stops there in any extension
      of `a`. */
  lemma WordOfPrefix(a: string, rest: string)
    requires |Word(a)| < |a|
    ensures Word(a + rest) == Word(a)
  {
    var w := Word(a);
    assert a == w + a[|w|..];
    assert a + rest == w + (a[|w|..] + rest);
    WordOf(w, a[|w|..] + rest);
  }

  /** A separator splits the fields: those before it, then those after. */
  lemma {:induction false} FieldsSplit(a: string, c: char, b: string)
    requires IsTagSeparator(c)
    ensures Fields(a + [c] + b) == Fields(a) + Fields(b)
    decreases |a|
  {
    var s := a + [c] + b;
    if a == [] {
      assert s == [c] + b && s[1..] == b;
    } else if IsTagSeparator(a[0]) {
      assert s[0] == a[0] && s[1..] == a[1..] + [c] + b;
      FieldsSplit(a[1..], c, b);
    } else {
      var w := Word(a);
      assert s[0] == a[0];
      if |w| < |a| {
        WordOfPrefix(a, [c] + b);
        assert s == a + ([c] + b);
        assert s[|w|..] == a[|w|..] + [c] + b;
        FieldsSplit(a[|w|..], c, b);
        assert Fields(s) == [w] + Fields(s[|w|..]);
        assert Fields(a) == [w] + Fields(a[|w|..]);
      } else {
        assert w == a;
        WordOf(a, [c] + b);
        assert s == a + ([c] + b);
        assert s[|a|..] == [c] + b;
        assert ([c] + b)[1..] == b;
        assert Fields(s) == [a] + Fields([c] + b);
        FieldsOfWord(a);
      }
    }
  }

  /** What the form starts from is read back unchanged: distinct tags
      without separators survive `join(", ")` followed by `parseTagsInput`. */
  lemma ParseJoinedTags(tags: seq<string>)
    requires Distinct(tags)
    requires forall i :: 0 <= i < |tags| ==> tags[i] != "" && NoSeparator(tags[i])
    ensures ParseTagsInput(JoinTags(tags)) == tags
  {
    FieldsOfJoin(tags);
    forall i | 0 <= i < |tags| ensures Trim(tags[i]) == tags[i] {
      NoSpaceIsTrimmed(tags[i]);
    }
    TrimmedNonEmptyOfTrimmed(tags);
    FirstOccurrencesOfDistinct(tags);
  }

  // ---------------------------------------------------------------------
  // The query string
  // ---------------------------------------------------------------------

  /** One `name=value` pair of a query, in order. */
  datatype Param = Param(name: string, value: string)
  type Query = seq<Param>

  /** `searchParams.get(name)`: the first value, if any. */
  function Get(q: Query, name: string): (r: Option<string>)
    ensures r.Some? ==> Param(name, r.value) in q
    ensures r.None? ==> forall i :: 0 <= i < |q| ==> q[i].name != name
  {
    if q == [] then None
    else if q[0].name == name then Some(q[0].value)
    else Get(q[1..], name)
  }

  /** `searchParams.getAll(name)`: every value, in order. */
  function GetAll(q: Query, name: string): (r: seq<string>)
    ensures |r| <= |q|
    ensures forall i :: 0 <= i < |r| ==> Param(name, r[i]) in q
  {
    if q == [] then []
    else if q[0].name == name then [q[0].value] + GetAll(q[1..], name)
    else GetAll(q[1..], name)
  }

  lemma {:induction false} GetAppend(a: Query, b: Query, name: string)
    ensures Get(a + b, name) == if Get(a, name).Some? then Get(a, name) else Get(b, name)
    ensures GetAll(a + b, name) == GetAll(a, name) + GetAll(b, name)
  {
    if a == [] {
      assert a + b == b;
    } else {
      var ab := a + b;
      assert ab[0] == a[0];
      assert ab[1..] == a[1..] + b;
      GetAppend(a[1..], b, name);
      if a[0].name == name {
        assert Get(ab, name) == Some(a[0].value) == Get(a, name);
        assert GetAll(ab, name) == [a[0].value] + GetAll(ab[1..], name);
      } else {
        assert Get(ab, name) == Get(ab[1..], name);
        assert GetAll(ab, name) == GetAll(ab[1..], name);
      }
    }
  }

  // ---------------------------------------------------------------------
  // `Number(limitRaw)` and the active filters
  // ---------------------------------------------------------------------

  /** A JavaScript number as far as the limit cares: an integer, an
      infinity, or NaN. */
  datatype JsNumber = Finite(value: int) | Infinite | NaN

  /** An optional sign followed by `Infinity` or by decimal digits. */
  function SignedNumber(t: string): (n: JsNumber)
    requires t != ""
  {
    var negative := t[0] == '-';
    var body := if t[0] == '-' || t[0] == '+' then t[1..] else t;
    if body == "Infinity" then Infinite
    else if body != "" && AllDigits(body) then
      var v: int := DigitsValue(body);
      Finite(if negative then -v else v)
    else NaN
  }

  lemma DigitsAreTrimmed(s: string)
    ensures AllDigits(s) ==> Trim(s) == s
  {
    if AllDigits(s) {
      NoSpaceIsTrimmed(s);
    }
  }

  /** `Number(s)` on the strings it reads as integers or infinities: the
      text is trimmed, the empty text is 0, then an optional sign and
      either `Infinity` or decimal digits. Anything else is NaN. */
  function NumberOf(s: string): (n: JsNumber)
    ensures Trim(s) == "" ==> n == Finite(0)
    ensures s != "" && AllDigits(s) ==> n == Finite(DigitsValue(s))
  {
    var t := Trim(s);
    if t == "" then Finite(0)
    else
      DigitsAreTrimmed(s);
      SignedNumber(t)
  }

  lemma FiftyIsFifty()
    ensures NumberOf("50") == Finite(50)
  {
    var fifty := "50";
    assert AllDigits(fifty);
    assert fifty[..1] == "5" && "5"[..0] == "";
    assert DigitsValue("5") == 5;
    assert DigitsValue(fifty) == 50;
  }

  /** The `active` limit: the `limit` parameter, or `"50"` when it is
      missing, as a number clamped into [1, 100]; 50 when not finite. */
  function ActiveLimit(raw: Option<string>): (limit: int)
    ensures 1 <= limit <= 100
    ensures NumberOf(raw.GetOr("50")).Finite? ==>
              var v := NumberOf(raw.GetOr("50")).value;
              && (1 <= v <= 100 ==> limit == v)
              && (v < 1 ==> limit == 1)
              && (v > 100 ==> limit == 100)
    ensures !NumberOf(raw.GetOr("50")).Finite? ==> limit == 50
    ensures raw.None? ==> limit == 50
  {
    var n := NumberOf(raw.GetOr("50"));
    FiftyIsFifty();
    match n
    case Finite(v) => if v > 100 then 100 else if v < 1 then 1 else v
    case _ => 50
  }

  /** The filters the page shows and passes to the list. */
  datatype Active = Active(from: string, to: string, domain: string, tags: seq<string>, limit: int)

  /** `active`: from, to and domain default to `""`; the `tag` values are
      trimmed and empties dropped, but not deduplicated. */
  function ActiveOf(q: Query): (a: Active)
    ensures 1 <= a.limit <= 100
    ensures Get(q, "limit").None? ==> a.limit == 50
    ensures forall i :: 0 <= i < |a.tags| ==> a.tags[i] != "" && Trim(a.tags[i]) == a.tags[i]
    ensures a.from == Get(q, "from").GetOr("")
    ensures a.to == Get(q, "to").GetOr("")
    ensures a.domain == Get(q, "domain").GetOr("")
  {
    Active(Get(q, "from").GetOr(""), Get(q, "to").GetOr(""), Get(q, "domain").GetOr(""),
           TrimmedNonEmpty(GetAll(q, "tag")), ActiveLimit(Get(q, "limit")))
  }

  /** The active tags are the URL's `tag` values, trimmed and without the
      blank ones, in order; the active limit is the `limit` parameter read
      as a number and clamped. */
  lemma ActiveReadsQuery(q: Query)
    ensures ActiveOf(q).tags == TrimmedNonEmpty(GetAll(q, "tag"))
    ensures ActiveOf(q).limit == ActiveLimit(Get(q, "limit"))
  {
  }

  lemma {:induction false} GetAllComplete(q: Query, name: string, v: string)
    requires Param(name, v) in q
    ensures v in GetAll(q, name)
  {
    if q[0] != Param(name, v) {
      GetAllComplete(q[1..], name, v);
    }
  }

  /** Every `tag` value with a non-empty trim is among the active tags. */
  lemma ActiveKeepsTags(q: Query, v: string)
    requires Param("tag", v) in q && Trim(v) != ""
    ensures Trim(v) in ActiveOf(q).tags
  {
    GetAllComplete(q, "tag", v);
    TrimmedNonEmptyKeeps(GetAll(q, "tag"), v);
  }

  /** Tags repeated in the URL stay repeated in `active`. */
  lemma ActiveKeepsDuplicates()
    ensures ActiveOf([Param("tag", "dev"), Param("tag", " dev")]).tags == ["dev", "dev"]
  {
    var dev, spaced := "dev", " dev";
    var q := [Param("tag", dev), Param("tag", spaced)];
    TwoTagValues(q, dev, spaced);
    SpacedDev(dev, spaced);
    TrimmedPair(dev, spaced);
  }

  lemma TwoTagValues(q: Query, a: string, b: string)
    requires q == [Param("tag", a), Param("tag", b)]
    ensures GetAll(q, "tag") == [a, b]
  {
    assert q[1..] == [Param("tag", b)] && q[1..][1..] == [];
  }

  lemma SpacedDev(dev: string, spaced: string)
    requires dev == "dev" && spaced == " dev"
    ensures Trim(dev) == dev && Trim(spaced) == dev
  {
    NoSpaceIsTrimmed(dev);
    assert spaced[1..] == dev;
    assert TrimLeft(spaced) == dev;
  }

  lemma TrimmedPair(a: string, b: string)
    requires a != "" && Trim(a) == a && Trim(b) == a
    ensures TrimmedNonEmpty([a, b]) == [a, a]
  {
    var tags := [a, b];
    assert tags[..1] == [a] && [a][..0] == [];
    assert TrimmedNonEmpty([a]) == [a];
  }

  // ---------------------------------------------------------------------
  // applyFilters
  // ---------------------------------------------------------------------

  /** One `tag` parameter per tag, in order. */
  function TagParams(tags: seq<string>): (q: Query)
    ensures |q| == |tags|
  {
    if tags == [] then [] else TagParams(tags[..|tags| - 1]) + [Param("tag", tags[|tags| - 1])]
  }

  /** A parameter that is set only when its value is non-empty. */
  function SetIfPresent(name: string, value: string): Query {
    if value != "" then [Param(name, value)] else []
  }

  /** The query `applyFilters` builds: `limit` only when it is not 50,
      `from`/`to`/`domain` only when non-empty, then the parsed tags. */
  function FilterQuery(limit: nat, from: string, to: string, domain: string, tags: seq<string>): Query {
    SetFilters(limit, from, to, domain) + TagParams(tags)
  }

  /** The parameters `applyFilters` sets before the tags. */
  function SetFilters(limit: nat, from: string, to: string, domain: string): Query {
    (if limit != 50 then [Param("limit", NatToString(limit))] else [])
    + SetIfPresent("from", from) + SetIfPresent("to", to) + SetIfPresent("domain", domain)
  }

  lemma {:induction false} GetTagParams(tags: seq<string>, name: string)
    ensures name != "tag" ==> Get(TagParams(tags), name) == None
    ensures GetAll(TagParams(tags), "tag") == tags
  {
    if tags != [] {
      var init := tags[..|tags| - 1];
      GetTagParams(init, name);
      GetAppend(TagParams(init), [Param("tag", tags[|tags| - 1])], name);
      GetAppend(TagParams(init), [Param("tag", tags[|tags| - 1])], "tag");
      assert tags == init + [tags[|tags| - 1]];
    }
  }

  lemma LimitReadBack(limit: nat)
    requires 1 <= limit <= 100 && limit != 50
    ensures ActiveLimit(Some(NatToString(limit))) == limit
  {
    var text := NatToString(limit);
    assert AllDigits(text);
    DigitsValueOfNatToString(limit);
    assert NumberOf(text) == Finite(limit);
  }

  lemma GetSetIfPresent(name: string, value: string, other: string)
    ensures Get(SetIfPresent(name, value), name) == if value != "" then Some(value) else None
    ensures other != name ==> Get(SetIfPresent(name, value), other) == None
    ensures other != name ==> GetAll(SetIfPresent(name, value), other) == []
  {
  }

  /** `Get` and `GetAll` over the five parts of a filter query. */
  lemma {:induction false} GetFilterQuery(limit: nat, from: string, to: string, domain: string, tags: seq<string>, name: string)
    ensures var l: Query := if limit != 50 then [Param("limit", NatToString(limit))] else [];
            var f, t, d := SetIfPresent("from", from), SetIfPresent("to", to), SetIfPresent("domain", domain);
            && Get(FilterQuery(limit, from, to, domain, tags), name) ==
                 (if Get(l, name).Some? then Get(l, name) else if Get(f, name).Some? then Get(f, name)
                  else if Get(t, name).Some? then Get(t, name) else if Get(d, name).Some? then Get(d, name)
                  else Get(TagParams(tags), name))
            && GetAll(FilterQuery(limit, from, to, domain, tags), name) ==
                 GetAll(l, name) + GetAll(f, name) + GetAll(t, name) + GetAll(d, name) + GetAll(TagParams(tags), name)
  {
    var l: Query := if limit != 50 then [Param("limit", NatToString(limit))] else [];
    var f, t, d := SetIfPresent("from", from), SetIfPresent("to", to), SetIfPresent("domain", domain);
    GetAppend(l + f + t + d, TagParams(tags), name);
    GetAppend(l + f + t, d, name);
    GetAppend(l + f, t, name);
    GetAppend(l, f, name);
  }

  lemma ReadBackFrom(limit: nat, from: string, to: string, domain: string, tags: seq<string>)
    ensures Get(FilterQuery(limit, from, to, domain, tags), "from") == if from != "" then Some(from) else None
  {
    var l: Query := if limit != 50 then [Param("limit", NatToString(limit))] else [];
    GetFilterQuery(limit, from, to, domain, tags, "from");
    GetSetIfPresent("to", to, "from");
    GetSetIfPresent("domain", domain, "from");
    GetTagParams(tags, "from");
    assert Get(l, "from") == None;
  }

  lemma ReadBackTo(limit: nat, from: string, to: string, domain: string, tags: seq<string>)
    ensures Get(FilterQuery(limit, from, to, domain, tags), "to") == if to != "" then Some(to) else None
  {
    var l: Query := if limit != 50 then [Param("limit", NatToString(limit))] else [];
    GetFilterQuery(limit, from, to, domain, tags, "to");
    GetSetIfPresent("from", from, "to");
    GetSetIfPresent("domain", domain, "to");
    GetTagParams(tags, "to");
    assert Get(l, "to") == None;
  }

  lemma ReadBackDomain(limit: nat, from: string, to: string, domain: string, tags: seq<string>)
    ensures Get(FilterQuery(limit, from, to, domain, tags), "domain") == if domain != "" then Some(domain) else None
  {
    var l: Query := if limit != 50 then [Param("limit", NatToString(limit))] else [];
    GetFilterQuery(limit, from, to, domain, tags, "domain");
    GetSetIfPresent("from", from, "domain");
    GetSetIfPresent("to", to, "domain");
    GetTagParams(tags, "domain");
    assert Get(l, "domain") == None;
  }

  lemma ReadBackTags(limit: nat, from: string, to: string, domain: string, tags: seq<string>)
    ensures GetAll(FilterQuery(limit, from, to, domain, tags), "tag") == tags
  {
    var l: Query := if limit != 50 then [Param("limit", NatToString(limit))] else [];
    GetFilterQuery(limit, from, to, domain, tags, "tag");
    GetSetIfPresent("from", from, "tag");
    GetSetIfPresent("to", to, "tag");
    GetSetIfPresent("domain", domain, "tag");
    GetTagParams(tags, "tag");
    assert GetAll(l, "tag") == [];
  }

  lemma ReadBackLimit(limit: nat, from: string, to: string, domain: string, tags: seq<string>)
    requires 1 <= limit <= 100
    ensures ActiveLimit(Get(FilterQuery(limit, from, to, domain, tags), "limit")) == limit
  {
    var q := FilterQuery(limit, from, to, domain, tags);
    GetFilterQuery(limit, from, to, domain, tags, "limit");
    GetSetIfPresent("from", from, "limit");
    GetSetIfPresent("to", to, "limit");
    GetSetIfPresent("domain", domain, "limit");
    GetTagParams(tags, "limit");
    if limit != 50 {
      assert Get(q, "limit") == Some(NatToString(limit));
      LimitReadBack(limit);
    } else {
      assert Get(q, "limit") == None;
    }
  }

  /** Reading the filters back from the query `applyFilters` writes gives
      the limit that was active, the three inputs, and the tags (which
      `parseTagsInput` returns trimmed and non-empty). */
  lemma {:induction false} ReadBackFilters(limit: nat, from: string, to: string, domain: string, tags: seq<string>)
    requires 1 <= limit <= 100
    requires forall i :: 0 <= i < |tags| ==> tags[i] != "" && Trim(tags[i]) == tags[i]
    ensures ActiveOf(FilterQuery(limit, from, to, domain, tags)) == Active(from, to, domain, tags, limit)
  {
    ReadBackFrom(limit, from, to, domain, tags);
    ReadBackTo(limit, from, to, domain, tags);
    ReadBackDomain(limit, from, to, domain, tags);
    ReadBackTags(limit, from, to, domain, tags);
    ReadBackLimit(limit, from, to, domain, tags);
    TrimmedNonEmptyOfTrimmed(tags);
  }

  /** Applying the form as it was filled from the URL reproduces the active
      filters, when the URL's tags are distinct and hold no separators. */
  lemma ApplyUnchangedForm(q: Query)
    requires var a := ActiveOf(q);
             Distinct(a.tags) && forall i :: 0 <= i < |a.tags| ==> NoSeparator(a.tags[i])
    ensures var a := ActiveOf(q);
            ActiveOf(FilterQuery(a.limit, a.from, a.to, a.domain, ParseTagsInput(JoinTags(a.tags)))) == a
  {
    var a := ActiveOf(q);
    ParseJoinedTags(a.tags);
    ReadBackFilters(a.limit, a.from, a.to, a.domain, a.tags);
  }

  /** The `URLSearchParams` that `applyFilters` fills: `set` for the limit
      and the three inputs, then one `append` per parsed tag. */
  method BuildQuery(limit: nat, from: string, to: string, domain: string, tags: seq<string>) returns (next: Query)
    ensures next == FilterQuery(limit, from, to, domain, tags)
  {
    next := if limit != 50 then [Param("limit", NatToString(limit))] else [];
    next := next + SetIfPresent("from", from);
    next := next + SetIfPresent("to", to);
    next := next + SetIfPresent("domain", domain);
    ghost var base := next;
    var i := 0;
    while i < |tags|
      invariant 0 <= i <= |tags|
      invariant next == base + TagParams(tags[..i])
    {
      assert tags[..i + 1][..i] == tags[..i];
      next := next + [Param("tag", tags[i])];
      i := i + 1;
    }
    assert tags[..|tags|] == tags;
  }

  /** The page: the four inputs and the query of its URL, which
      `router.replace` overwrites (the path is always `/links`; an empty
      query is the bare `/links`). */
  class FiltersPage {
    var fromInput: string
    var toInput: string
    var domainInput: string
    var tagsInput: string
    var query: Query

    /** The inputs start from the active filters. */
    constructor (q: Query)
      ensures query == q
      ensures var a := ActiveOf(q);
              fromInput == a.from && toInput == a.to && domainInput == a.domain && tagsInput == JoinTags(a.tags)
    {
      var a := ActiveOf(q);
      query := q;
      fromInput, toInput, domainInput := a.from, a.to, a.domain;
      tagsInput := JoinTags(a.tags);
    }

    /** `applyFilters`: the new query keeps the active limit and carries the
        inputs and the parsed tags; the inputs are unchanged. */
    method ApplyFilters()
      modifies this
      ensures query == FilterQuery(ActiveOf(old(query)).limit, fromInput, toInput, domainInput, ParseTagsInput(tagsInput))
      ensures fromInput == old(fromInput) && toInput == old(toInput)
      ensures domainInput == old(domainInput) && tagsInput == old(tagsInput)
    {
      query := BuildQuery(ActiveOf(query).limit, fromInput, toInput, domainInput, ParseTagsInput(tagsInput));
    }

    /** `clearFilters`: all four inputs empty and the bare `/links`. */
    method ClearFilters()
      modifies this
      ensures fromInput == "" && toInput == "" && domainInput == "" && tagsInput == ""
      ensures query == []
    {
      fromInput, toInput, domainInput, tagsInput := "", "", "", "";
      query := [];
    }
  }
}
