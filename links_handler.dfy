/** The input guards of the two link endpoints in
    api/internal/handler/links.go: `CreateLink` (POST /api/links) and
    `GetLinks` (GET /api/links). The authentication middleware, JSON
    binding, `url.Parse`, the time-zone database and date parsing, and the
    repository are parameters; dates are day numbers. */
module LinksHandler {
  import opened Wrappers
  import opened Strings
  import opened Seqs

  const MaxDescriptionLength := 2000
  const DefaultLimit := 50

  /** The JSON response of a handler. */
  datatype Reply =
    | Created(id: string)
    | Listed
    | Error(status: nat, error: string, detail: Option<string>)

  const Unauthorized := Error(401, "unauthorized", None)

  // ---------------------------------------------------------------------
  // CreateLink
  // ---------------------------------------------------------------------

  /** `model.LinkCreateRequest` after binding; a JSON `null` or missing
      `tags` is `None`. */
  datatype LinkCreateRequest = LinkCreateRequest(
    url: string, title: string, description: string, ogImage: string,
    pageUrl: string, note: string, tags: Option<seq<string>>)

  /** The scheme and host `url.Parse` finds. */
  datatype ParsedUrl = ParsedUrl(scheme: string, host: string)

  /** `url.Parse`, with `None` for an error. */
  type UrlParser = string -> Option<ParsedUrl>

  /** `repository.CreateLinkInput`. */
  datatype CreateLinkInput = CreateLinkInput(
    userId: string, url: string, title: string, description: string, domain: string,
    ogImage: string, pageUrl: string, note: string, tags: seq<string>)

  /** An absolute http or https URL with a host. */
  predicate IsWebUrl(u: string, parse: UrlParser) {
    parse(u).Some? && (parse(u).value.scheme == "http" || parse(u).value.scheme == "https")
    && parse(u).value.host != ""
  }

  /** What `CreateLink` hands to the repository for a request whose URL
      parsed with host `host`: the domain without one leading `www.`, the
      description trimmed and cut to 2000 characters, the `og_image`
      trimmed and kept only when it is an absolute http(s) URL with a host,
      and missing tags as an empty list. */
  predicate IsLinkInput(input: CreateLinkInput, userId: string, req: LinkCreateRequest, host: string, parse: UrlParser)
    ensures IsLinkInput(input, userId, req, host, parse) ==>
              && |input.description| <= MaxDescriptionLength
              && input.description <= Trim(req.description)
              && (input.ogImage == "" || IsWebUrl(input.ogImage, parse))
  {
    var description := Trim(req.description);
    var og := Trim(req.ogImage);
    && input.userId == userId && input.url == req.url && input.title == req.title
    && input.pageUrl == req.pageUrl && input.note == req.note
    && input.domain == TrimPrefix(host, "www.")
    && input.description ==
         (if |description| <= MaxDescriptionLength then description else description[..MaxDescriptionLength])
    && (IsWebUrl(og, parse) ==> input.ogImage == og)
    && (!IsWebUrl(og, parse) ==> input.ogImage == "")
    && input.tags == req.tags.GetOr([])
  }

  /** The normalisation steps of `CreateLink` between the URL check and the
      repository call. */
  method NormalizeLinkInput(userId: string, req: LinkCreateRequest, host: string, parse: UrlParser)
    returns (input: CreateLinkInput)
    ensures IsLinkInput(input, userId, req, host, parse)
  {
    var domain := host;
    domain := TrimPrefix(domain, "www.");

    var description := Trim(req.description);
    var ogImage := Trim(req.ogImage);
    if |description| > MaxDescriptionLength {
      description := description[..MaxDescriptionLength];
    }
    if ogImage != "" {
      var u := parse(ogImage);
      if u.None? || (u.value.scheme != "http" && u.value.scheme != "https") || u.value.host == "" {
        ogImage := "";
      }
    }

    var tags := req.tags.GetOr([]);

    input := CreateLinkInput(userId, req.url, req.title, description, domain, ogImage,
                             req.pageUrl, req.note, tags);
  }

  /** `CreateLink`: the guards in order, then the normalised input handed
      to the repository (`insert` is what the repository returns for it). */
  method CreateLink(userId: string, body: Result<LinkCreateRequest, string>, parse: UrlParser,
                    insert: Result<string, string>)
    returns (reply: Reply, input: Option<CreateLinkInput>)
    ensures userId == "" ==> reply == Unauthorized && input == None
    ensures userId != "" && body.Failure? ==>
              reply == Error(400, "invalid request", Some(body.error)) && input == None
    ensures userId != "" && body.Success? && (parse(body.value.url).None? || parse(body.value.url).value.host == "") ==>
              reply == Error(400, "invalid url", None) && input == None
    ensures input.Some? <==>
              userId != "" && body.Success? && parse(body.value.url).Some? && parse(body.value.url).value.host != ""
    ensures input.Some? ==> IsLinkInput(input.value, userId, body.value, parse(body.value.url).value.host, parse)
    ensures input.Some? ==>
              (insert.Success? ==> reply == Created(insert.value))
              && (insert.Failure? ==> reply == Error(500, "failed to insert link", Some(insert.error)))
  {
    if userId == "" {
      return Unauthorized, None;
    }
    if body.Failure? {
      return Error(400, "invalid request", Some(body.error)), None;
    }
    var req := body.value;
    var parsed := parse(req.url);
    if parsed.None? || parsed.value.host == "" {
      return Error(400, "invalid url", None), None;
    }
    var normalized := NormalizeLinkInput(userId, req, parsed.value.host, parse);
    input := Some(normalized);
    match insert {
      case Failure(e) => reply := Error(500, "failed to insert link", Some(e));
      case Success(id) => reply := Created(id);
    }
  }

  // ---------------------------------------------------------------------
  // GetLinks
  // ---------------------------------------------------------------------

  /** The request's query: each name with its values in order (`url.Values`). */
  type QueryValues = map<string, seq<string>>

  /** `c.Query(name)`: the first value, or `""`. */
  function Query(q: QueryValues, name: string): string {
    if name in q && |q[name]| > 0 then q[name][0] else ""
  }

  /** `c.DefaultQuery(name, d)`: the first value when the name is present
      (even an empty one), otherwise `d`. */
  function DefaultQuery(q: QueryValues, name: string, d: string): string {
    if name in q && |q[name]| > 0 then q[name][0] else d
  }

  /** `c.QueryArray(name)`: all values, or none. */
  function QueryArray(q: QueryValues, name: string): seq<string> {
    if name in q then q[name] else []
  }

  /** `strconv.Atoi`: an optional sign and at least one ASCII digit. */
  function Atoi(s: string): (r: Option<int>)
    ensures r.Some? <==>
              s != "" && (if s[0] == '+' || s[0] == '-' then |s| > 1 && AllDigits(s[1..]) else AllDigits(s))
    ensures s != "" && AllDigits(s) ==> r == Some(DigitsValue(s))
    ensures s != "" && s[0] == '+' && r.Some? ==> r.value == DigitsValue(s[1..])
    ensures s != "" && s[0] == '-' && r.Some? ==> r.value == -(DigitsValue(s[1..]) as int)
    ensures s == "" ==> r == None
  {
    if s == "" then None
    else
      var body := if s[0] == '+' || s[0] == '-' then s[1..] else s;
      if body == "" || !AllDigits(body) then None
      else
        var v: int := DigitsValue(body);
        Some(if s[0] == '-' then -v else v)
  }

  /** The page size: the `limit` query parameter (default `"50"`) when it
      is an integer in [1, 100], otherwise 50. */
  function Limit(q: QueryValues): (limit: int)
    ensures 1 <= limit <= 100
    ensures var v := Atoi(DefaultQuery(q, "limit", "50"));
            (v.Some? && 1 <= v.value <= 100 ==> limit == v.value)
            && (!(v.Some? && 1 <= v.value <= 100) ==> limit == DefaultLimit)
  {
    var v := Atoi(DefaultQuery(q, "limit", "50"));
    if v.None? || v.value < 1 || v.value > 100 then DefaultLimit else v.value
  }

  /** `repository.ListLinksFilter`; `to` is exclusive. */
  datatype ListLinksFilter = ListLinksFilter(limit: int, from: Option<int>, to: Option<int>,
                                             domain: string, tags: seq<string>)

  /** `time.LoadLocation` succeeding for a zone name. */
  type ZoneCheck = string -> bool
  /** `time.ParseInLocation("2006-01-02", s, loc)` as a day number, or
      `None` when `s` is not a date of that form. */
  type DateParser = string -> Option<int>

  /** The tag normalisation loop of `GetLinks`: each value trimmed, empties
      skipped, and a value already recorded in `uniq` skipped. */
  method NormalizeTags(tags: seq<string>) returns (normalized: seq<string>)
    ensures normalized == FirstOccurrences(TrimmedNonEmpty(tags))
  {
    var uniq: set<string> := {};
    normalized := [];
    NormalizeStart(tags);
    for i := 0 to |tags|
      invariant normalized == FirstOccurrences(TrimmedNonEmpty(tags[..i]))
      invariant forall t :: t in uniq <==> t in normalized
    {
      NormalizeStep(tags, i);
      var t := Trim(tags[i]);
      if t == "" {
        continue;
      }
      if t in uniq {
        assert t in normalized;
        continue;
      }
      uniq := uniq + {t};
      normalized := normalized + [t];
    }
    assert tags[..|tags|] == tags;
  }

  lemma NormalizeStart(tags: seq<string>)
    ensures FirstOccurrences(TrimmedNonEmpty(tags[..0])) == []
  {
    assert tags[..0] == [];
    assert TrimmedNonEmpty([]) == [];
  }

  /** One more value: skipped when its trim is empty or already kept,
      appended otherwise. */
  lemma NormalizeStep(tags: seq<string>, i: nat)
    requires i < |tags|
    ensures var before := FirstOccurrences(TrimmedNonEmpty(tags[..i]));
            var t := Trim(tags[i]);
            FirstOccurrences(TrimmedNonEmpty(tags[..i + 1])) ==
              if t == "" || t in before then before else before + [t]
  {
    var prefix := tags[..i + 1];
    assert prefix[..i] == tags[..i];
    assert prefix[|prefix| - 1] == tags[i];
    var t := Trim(tags[i]);
    var kept := TrimmedNonEmpty(tags[..i]);
    assert TrimmedNonEmpty(prefix) == if t == "" then kept else kept + [t];
    if t != "" {
      var s := kept + [t];
      assert s[..|s| - 1] == kept;
    }
  }

  /** The `tag` values of `GetLinks`: normalised when there are any. */
  method QueryTags(q: QueryValues) returns (tags: seq<string>)
    ensures tags == FirstOccurrences(TrimmedNonEmpty(QueryArray(q, "tag")))
  {
    tags := QueryArray(q, "tag");
    if |tags| > 0 {
      tags := NormalizeTags(tags);
    }
  }

  /** The normalised tags: non-empty, trimmed, without repeats, in the order
      of their first occurrence, and every value with a non-empty trim is
      represented. */
  lemma NormalizedTags(tags: seq<string>, i: nat, j: nat, x: string)
    ensures var n := FirstOccurrences(TrimmedNonEmpty(tags));
            && Distinct(n)
            && (forall k :: 0 <= k < |n| ==> n[k] != "" && Trim(n[k]) == n[k])
            && (x in tags && Trim(x) != "" ==> Trim(x) in n)
            && (i < j < |n| ==> IndexOf(TrimmedNonEmpty(tags), n[i]) < IndexOf(TrimmedNonEmpty(tags), n[j]))
  {
    var m := TrimmedNonEmpty(tags);
    NormalizedTrimmed(m);
    if x in tags && Trim(x) != "" {
      TrimmedNonEmptyKeeps(tags, x);
    }
    if i < j < |FirstOccurrences(m)| {
      FirstOccurrencesOrder(m, i, j);
    }
  }

  lemma NormalizedTrimmed(m: seq<string>)
    requires forall k :: 0 <= k < |m| ==> m[k] != "" && Trim(m[k]) == m[k]
    ensures var n := FirstOccurrences(m);
            forall k :: 0 <= k < |n| ==> n[k] != "" && Trim(n[k]) == n[k]
  {
    var n := FirstOccurrences(m);
    forall k | 0 <= k < |n| ensures n[k] != "" && Trim(n[k]) == n[k] {
      assert n[k] in m;
    }
  }

  /** Normalising normalised tags changes nothing. */
  lemma NormalizeTagsIdempotent(tags: seq<string>)
    ensures var n := FirstOccurrences(TrimmedNonEmpty(tags));
            FirstOccurrences(TrimmedNonEmpty(n)) == n
  {
    var n := FirstOccurrences(TrimmedNonEmpty(tags));
    NormalizedTags(tags, 0, 0, "");
    TrimmedNonEmptyOfTrimmed(n);
    FirstOccurrencesOfDistinct(n);
  }

  /** The `tz` parameter, trimmed, is absent or names a known zone. */
  predicate ZoneOk(q: QueryValues, zoneExists: ZoneCheck) {
    Trim(Query(q, "tz")) == "" || zoneExists(Trim(Query(q, "tz")))
  }

  /** The date parameter `name` is absent or parses. */
  predicate DateOk(q: QueryValues, name: string, parseDate: DateParser) {
    Query(q, name) == "" || parseDate(Query(q, name)).Some?
  }

  /** When both dates are given, `from` is not after `to`. */
  predicate RangeOk(q: QueryValues, parseDate: DateParser)
    requires DateOk(q, "from", parseDate) && DateOk(q, "to", parseDate)
  {
    Query(q, "from") != "" && Query(q, "to") != "" ==>
      parseDate(Query(q, "from")).value <= parseDate(Query(q, "to")).value
  }

  /** The `from` and `to` guards of `GetLinks`, in order: each date must
      parse, then `from` must come before the exclusive `to`. */
  method DateRange(q: QueryValues, parseDate: DateParser)
    returns (err: Option<Reply>, from: Option<int>, to: Option<int>)
    ensures !DateOk(q, "from", parseDate) ==> err == Some(Error(400, "invalid from", Some("from must be YYYY-MM-DD")))
    ensures DateOk(q, "from", parseDate) && !DateOk(q, "to", parseDate) ==>
              err == Some(Error(400, "invalid to", Some("to must be YYYY-MM-DD")))
    ensures DateOk(q, "from", parseDate) && DateOk(q, "to", parseDate) && !RangeOk(q, parseDate) ==>
              err == Some(Error(400, "invalid range", Some("from must be before or equal to to")))
    ensures err.None? <==> DateOk(q, "from", parseDate) && DateOk(q, "to", parseDate) && RangeOk(q, parseDate)
    ensures err.None? ==>
              && (from.Some? <==> Query(q, "from") != "")
              && (from.Some? ==> from.value == parseDate(Query(q, "from")).value)
              && (to.Some? <==> Query(q, "to") != "")
              && (to.Some? ==> to.value == parseDate(Query(q, "to")).value + 1)
              && (from.Some? && to.Some? ==> from.value < to.value)
  {
    from, to := None, None;

    var fromStr := Query(q, "from");
    if fromStr != "" {
      var t := parseDate(fromStr);
      if t.None? {
        return Some(Error(400, "invalid from", Some("from must be YYYY-MM-DD"))), None, None;
      }
      from := t;
    }

    var toStr := Query(q, "to");
    if toStr != "" {
      var t := parseDate(toStr);
      if t.None? {
        return Some(Error(400, "invalid to", Some("to must be YYYY-MM-DD"))), None, None;
      }
      to := Some(t.value + 1);
    }

    if from.Some? && to.Some? && !(from.value < to.value) {
      return Some(Error(400, "invalid range", Some("from must be before or equal to to"))), None, None;
    }
    err := None;
  }

  /** `GetLinks` up to the repository call: the guards in order (401, an
      unknown `tz`, a malformed `from` or `to`, an empty range), then the
      filter; `listError` is the repository's error, if any. */
  method GetLinks(userId: string, q: QueryValues, zoneExists: ZoneCheck, parseDate: DateParser,
                  listError: Option<string>)
    returns (reply: Reply, filter: Option<ListLinksFilter>)
    ensures userId == "" ==> reply == Unauthorized && filter == None
    ensures userId != "" && !ZoneOk(q, zoneExists) ==>
              reply == Error(400, "invalid tz", Some("tz must be an IANA time zone (e.g. Asia/Tokyo)"))
              && filter == None
    ensures userId != "" && ZoneOk(q, zoneExists) && !DateOk(q, "from", parseDate) ==>
              reply == Error(400, "invalid from", Some("from must be YYYY-MM-DD")) && filter == None
    ensures userId != "" && ZoneOk(q, zoneExists) && DateOk(q, "from", parseDate) && !DateOk(q, "to", parseDate) ==>
              reply == Error(400, "invalid to", Some("to must be YYYY-MM-DD")) && filter == None
    ensures userId != "" && ZoneOk(q, zoneExists) && DateOk(q, "from", parseDate) && DateOk(q, "to", parseDate)
            && !RangeOk(q, parseDate) ==>
              reply == Error(400, "invalid range", Some("from must be before or equal to to")) && filter == None
    ensures filter.Some? <==>
              && userId != "" && ZoneOk(q, zoneExists)
              && DateOk(q, "from", parseDate) && DateOk(q, "to", parseDate) && RangeOk(q, parseDate)
    ensures filter.Some? ==>
              && filter.value.limit == Limit(q)
              && (filter.value.from.Some? <==> Query(q, "from") != "")
              && (filter.value.from.Some? ==> filter.value.from.value == parseDate(Query(q, "from")).value)
              && (filter.value.to.Some? <==> Query(q, "to") != "")
              && (filter.value.to.Some? ==> filter.value.to.value == parseDate(Query(q, "to")).value + 1)
              && (filter.value.from.Some? && filter.value.to.Some? ==> filter.value.from.value < filter.value.to.value)
              && filter.value.domain == TrimPrefix(Trim(Query(q, "domain")), "www.")
              && filter.value.tags == FirstOccurrences(TrimmedNonEmpty(QueryArray(q, "tag")))
    ensures filter.Some? ==>
              (listError.None? ==> reply == Listed)
              && (listError.Some? ==> reply == Error(500, "failed to fetch links", None))
  {
    if userId == "" {
      return Unauthorized, None;
    }

    var limit := Limit(q);

    var tz := Trim(Query(q, "tz"));
    if tz != "" && !zoneExists(tz) {
      return Error(400, "invalid tz", Some("tz must be an IANA time zone (e.g. Asia/Tokyo)")), None;
    }

    var rangeError, from, to := DateRange(q, parseDate);
    if rangeError.Some? {
      return rangeError.value, None;
    }

    var domain := Trim(Query(q, "domain"));
    domain := TrimPrefix(domain, "www.");

    var tags := QueryTags(q);

    filter := Some(ListLinksFilter(limit, from, to, domain, tags));
    reply := if listError.None? then Listed else Error(500, "failed to fetch links", None);
  }
}
