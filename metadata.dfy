/** The metadata helpers of api/internal/service/metadata.go: picking the
    first non-empty value, merging two results, the bot-challenge test, the
    reader-proxy title and image extraction, `fetchAndParse`'s assembly of a
    result and `FetchMetadata`'s fallback decision. HTTP, HTML parsing,
    regular expressions and URL resolution are parameters. */
module Metadata {
  import opened Wrappers
  import opened Strings

  const JinaPrefix := "https://r.jina.ai/"
  const TitlePrefix := "Title:"

  /** `Metadata`. */
  datatype Meta = Meta(title: string, description: string, image: string, source: string)

  // ---------------------------------------------------------------------
  // firstNonEmpty
  // ---------------------------------------------------------------------

  /** The position, at `i` or after it, of the first value whose trim is
      non-empty, or the number of values when there is none. */
  function FirstNonEmptyFrom(values: seq<string>, i: nat): (k: nat)
    requires i <= |values|
    ensures i <= k <= |values|
    ensures k < |values| ==> Trim(values[k]) != ""
    ensures forall j :: i <= j < k ==> Trim(values[j]) == ""
    decreases |values| - i
  {
    if i == |values| then i
    else if Trim(values[i]) != "" then i
    else FirstNonEmptyFrom(values, i + 1)
  }

  /** `firstNonEmpty`: the trim of the first value whose trim is non-empty,
      or `""` when there is none. */
  function FirstNonEmpty(values: seq<string>): (r: string)
    ensures var k := FirstNonEmptyFrom(values, 0);
            r == if k < |values| then Trim(values[k]) else ""
    ensures Trim(r) == r
  {
    var k := FirstNonEmptyFrom(values, 0);
    if k < |values| then TrimIdempotent(values[k]); Trim(values[k]) else ""
  }

  /** The result is empty exactly when every value trims to empty. */
  lemma FirstNonEmptyIsFirst(values: seq<string>)
    ensures FirstNonEmpty(values) == "" <==> forall i :: 0 <= i < |values| ==> Trim(values[i]) == ""
  {
  }

  // ---------------------------------------------------------------------
  // mergePreferExisting
  // ---------------------------------------------------------------------

  /** One field of a merge: the primary's value unless it is empty. */
  predicate PrefersExisting(out: string, primary: string, fallback: string) {
    (primary != "" ==> out == primary) && (primary == "" ==> out == fallback)
  }

  /** `mergePreferExisting`: a new value that starts as a copy of the
      primary and takes each empty field from the fallback. */
  method MergePreferExisting(primary: Meta, fallback: Meta) returns (out: Meta)
    ensures PrefersExisting(out.title, primary.title, fallback.title)
    ensures PrefersExisting(out.description, primary.description, fallback.description)
    ensures PrefersExisting(out.image, primary.image, fallback.image)
    ensures out.source == primary.source
    ensures out.title == "" <==> primary.title == "" && fallback.title == ""
    ensures out.image == "" <==> primary.image == "" && fallback.image == ""
  {
    out := Meta(primary.title, primary.description, primary.image, primary.source);
    if out.title == "" {
      out := out.(title := fallback.title);
    }
    if out.description == "" {
      out := out.(description := fallback.description);
    }
    if out.image == "" {
      out := out.(image := fallback.image);
    }
  }

  // ---------------------------------------------------------------------
  // looksLikeBotChallenge
  // ---------------------------------------------------------------------

  /** The lower-cased, trimmed title mentions one of three phrases. */
  predicate MentionsChallenge(t: string) {
    Contains(t, "just a moment") || Contains(t, "attention required") || Contains(t, "cloudflare")
  }

  /** `looksLikeBotChallenge`: the title of a bot-protection interstitial. */
  predicate LooksLikeBotChallenge(title: string)
    ensures LooksLikeBotChallenge(title) ==> |Trim(title)| >= |"cloudflare"|
  {
    MentionsChallenge(ToLower(Trim(title)))
  }

  /** Surrounding white space does not change the test. */
  lemma BotChallengeIgnoresPadding(title: string)
    ensures LooksLikeBotChallenge(Trim(title)) == LooksLikeBotChallenge(title)
  {
    TrimIdempotent(title);
  }

  /** The test does not depend on letter case. */
  lemma BotChallengeIgnoresCase(title: string)
    ensures LooksLikeBotChallenge(ToLower(title)) == LooksLikeBotChallenge(title)
  {
    LoweredTrimIgnoresCase(title);
  }

  lemma LoweredTrimIgnoresCase(title: string)
    ensures ToLower(Trim(ToLower(title))) == ToLower(Trim(title))
  {
    TrimToLower(title);
    ToLowerIdempotent(Trim(title));
  }

  // ---------------------------------------------------------------------
  // parseJinaTitle and extractFirstImageURL
  // ---------------------------------------------------------------------

  /** A line of the reader proxy's header that carries the page title. */
  predicate IsTitleLine(line: string) {
    TitlePrefix <= Trim(line)
  }

  /** The title a `Title:` line carries: what follows the prefix, trimmed. */
  function TitleText(line: string): string {
    Trim(TrimPrefix(Trim(line), TitlePrefix))
  }

  /** The position, at `i` or after it, of the first title line, or the
      number of lines when there is none. */
  function FirstTitleFrom(lines: seq<string>, i: nat): (k: nat)
    requires i <= |lines|
    ensures i <= k <= |lines|
    ensures k < |lines| ==> IsTitleLine(lines[k])
    ensures forall j :: i <= j < k ==> !IsTitleLine(lines[j])
    decreases |lines| - i
  {
    if i == |lines| then i
    else if IsTitleLine(lines[i]) then i
    else
      var k := FirstTitleFrom(lines, i + 1);
      assert forall j :: i <= j < k ==> !IsTitleLine(lines[j]) by {
        forall j | i <= j < k ensures !IsTitleLine(lines[j]) {
          if j != i { assert i + 1 <= j; }
        }
      }
      k
  }

  /** The loop of `parseJinaTitle`: the title of the first title line, even
      when it is empty and a later line carries one; `""` without any. */
  function FirstTitle(lines: seq<string>): (r: string)
    ensures var k := FirstTitleFrom(lines, 0);
            r == if k < |lines| then TitleText(lines[k]) else ""
    ensures Trim(r) == r
  {
    var k := FirstTitleFrom(lines, 0);
    if k < |lines| then
      TrimIdempotent(TrimPrefix(Trim(lines[k]), TitlePrefix));
      TitleText(lines[k])
    else ""
  }

  /** `parseJinaTitle`. */
  function ParseJinaTitle(text: string): (r: string)
    ensures Trim(r) == r
  {
    FirstTitle(Split(text, '\n'))
  }

  /** The reader proxy's first line `Title: <t>` gives back `t`. */
  lemma JinaTitleRoundTrip(t: string, rest: string)
    requires Trim(t) == t && '\n' !in t
    ensures ParseJinaTitle(TitlePrefix + " " + t + "\n" + rest) == t
  {
    var first := TitlePrefix + " " + t;
    FirstLineHasNoNewline(TitlePrefix + " ", t);
    assert TitlePrefix + " " + t + "\n" + rest == first + ['\n'] + rest;
    SplitAtFirst(first, '\n', rest);
    TitleLine(t, Split(rest, '\n'));
  }

  lemma FirstLineHasNoNewline(head: string, t: string)
    requires head == TitlePrefix + " " && '\n' !in t
    ensures '\n' !in head + t
  {
    assert forall i :: 0 <= i < |head| ==> head[i] != '\n';
  }

  lemma TitleLine(t: string, more: seq<string>)
    requires Trim(t) == t
    ensures FirstTitle([TitlePrefix + " " + t] + more) == t
  {
    var line := TitlePrefix + " " + t;
    var h := TitlePrefix + (if t == "" then "" else " " + t);
    TitleLineTrim(t);
    TitleRemainder(t);
    assert h[..|TitlePrefix|] == TitlePrefix;
    assert Trim(line) == h && IsTitleLine(line);
    assert TitleText(line) == t;
    FirstTitleAtStart([line] + more);
  }

  /** A title line at the start decides the title. */
  lemma FirstTitleAtStart(lines: seq<string>)
    requires lines != [] && IsTitleLine(lines[0])
    ensures FirstTitle(lines) == TitleText(lines[0])
  {
    assert FirstTitleFrom(lines, 0) == 0;
  }

  lemma TitleLineTrim(t: string)
    requires Trim(t) == t
    ensures Trim(TitlePrefix + " " + t) == TitlePrefix + (if t == "" then "" else " " + t)
  {
    var head := TitlePrefix;
    if t == "" {
      assert head + " " + t == head + " ";
      TrimTrailingSpace(head);
    } else {
      var first := head + " " + t;
      assert first[0] == head[0] && first[|first| - 1] == t[|t| - 1];
      TrimmedIsFixed(first);
    }
  }

  /** One trailing space is trimmed from a head that has none at its ends. */
  lemma TrimTrailingSpace(head: string)
    requires head != [] && !IsSpace(head[0]) && !IsSpace(head[|head| - 1])
    ensures Trim(head + " ") == head
  {
    var s := head + " ";
    assert s[0] == head[0];
    assert TrimLeft(s) == s;
    assert s[..|s| - 1] == head;
    assert TrimRight(s) == TrimRight(head);
    TrimmedIsFixed(head);
  }

  lemma TitleRemainder(t: string)
    requires Trim(t) == t
    ensures Trim(TrimPrefix(TitlePrefix + (if t == "" then "" else " " + t), TitlePrefix)) == t
  {
    if t != "" {
      var rest := TrimPrefix(TitlePrefix + " " + t, TitlePrefix);
      assert rest == " " + t;
      assert TrimLeft(rest) == TrimLeft(t);
      assert !IsSpace(t[0]);
      assert TrimLeft(t) == t;
      TrimmedIsFixed(t);
    }
  }

  /** `extractFirstImageURL`, given the first match of the Markdown image
      pattern (its URL group) and the first match of the bare image URL
      pattern (`""` when none): the Markdown link wins, and trailing `)`
      are removed. */
  function ExtractFirstImageUrl(markdownMatch: Option<string>, bareMatch: string): (r: string)
    ensures markdownMatch.Some? ==> r == TrimRightChar(markdownMatch.value, ')')
    ensures markdownMatch.None? ==> r == TrimRightChar(bareMatch, ')')
    ensures markdownMatch.None? && bareMatch == "" ==> r == ""
    ensures r != "" ==> r[|r| - 1] != ')'
  {
    if markdownMatch.Some? then TrimRightChar(markdownMatch.value, ')')
    else if bareMatch != "" then TrimRightChar(bareMatch, ')')
    else ""
  }

  // ---------------------------------------------------------------------
  // fetchAndParse
  // ---------------------------------------------------------------------

  /** The parts of a parsed HTML document the handler reads: the `content`
      of the first `meta[property=…]` and `meta[name=…]` per key, and the
      text of `<title>`. */
  datatype HtmlDoc = HtmlDoc(property: map<string, string>, name: map<string, string>, titleText: string)

  function Attr(m: map<string, string>, key: string): string {
    if key in m then m[key] else ""
  }

  /** `getMeta`: the `property` form first, then the `name` form. */
  function GetMeta(doc: HtmlDoc, key: string): (r: string)
    ensures Trim(Attr(doc.property, key)) != "" ==> r == Trim(Attr(doc.property, key))
    ensures Trim(Attr(doc.property, key)) == "" ==> r == Trim(Attr(doc.name, key))
  {
    var values := [Attr(doc.property, key), Attr(doc.name, key)];
    assert Trim(values[0]) == "" && Trim(values[1]) == "" ==> FirstNonEmptyFrom(values, 2) == 2;
    FirstNonEmpty(values)
  }

  function HtmlTitle(doc: HtmlDoc): string {
    FirstNonEmpty([GetMeta(doc, "og:title"), GetMeta(doc, "twitter:title"), Trim(doc.titleText)])
  }

  function HtmlDescription(doc: HtmlDoc): string {
    FirstNonEmpty([GetMeta(doc, "og:description"), GetMeta(doc, "twitter:description"), GetMeta(doc, "description")])
  }

  function HtmlImage(doc: HtmlDoc): string {
    FirstNonEmpty([GetMeta(doc, "og:image"), GetMeta(doc, "og:image:url"),
                   GetMeta(doc, "twitter:image"), GetMeta(doc, "twitter:image:src")])
  }

  /** What `url.Parse` reports about a string that parses: whether it is
      absolute, and the parsed value. */
  datatype Url = Url(isAbs: bool, text: string)
  type UrlParser = string -> Option<Url>
  /** `base.ResolveReference(ref).String()`. */
  type Resolver = (Url, Url) -> string

  /** `resolveMaybeRelativeURL`: an absolute image URL is kept, a relative
      one is resolved against the page's URL, and anything that does not
      parse is returned trimmed. */
  function ResolveMaybeRelativeUrl(base: string, u: string, parse: UrlParser, resolve: Resolver): (r: string)
    ensures Trim(u) == "" ==> r == ""
    ensures Trim(u) != "" && parse(Trim(u)).Some? && parse(Trim(u)).value.isAbs ==> r == Trim(u)
    ensures Trim(u) != "" && (parse(Trim(u)).None? || parse(base).None?) ==> r == Trim(u)
    ensures Trim(u) != "" && parse(Trim(u)).Some? && !parse(Trim(u)).value.isAbs && parse(base).Some? ==>
              r == resolve(parse(base).value, parse(Trim(u)).value)
  {
    var u := Trim(u);
    if u == "" then ""
    else
      var parsed := parse(u);
      if parsed.Some? && parsed.value.isAbs then u
      else
        var base := parse(base);
        if base.None? then u
        else if parsed.None? then u
        else resolve(base.value, parsed.value)
  }

  /** A page's body and what the parsers find in it: the HTML document
      (`None` when it does not parse) and the first matches of the two
      image patterns. */
  datatype Page = Page(target: string, body: string, doc: Option<HtmlDoc>,
                       markdownImage: Option<string>, bareImage: string)

  /** The image the HTML phase settles on, resolved against the page. */
  function HtmlPhaseImage(page: Page, parse: UrlParser, resolve: Resolver): string {
    if page.doc.Some? && HtmlImage(page.doc.value) != "" then
      ResolveMaybeRelativeUrl(page.target, HtmlImage(page.doc.value), parse, resolve)
    else ""
  }

  function HtmlPhaseTitle(page: Page): string {
    if page.doc.Some? then HtmlTitle(page.doc.value) else ""
  }

  /** `fetchAndParse` after the body is read: the OG values first; when no
      image was found, the reader-proxy title and image fill the gaps,
      and a title the page already gave is never replaced. */
  method FetchAndParse(page: Page, parse: UrlParser, resolve: Resolver) returns (m: Meta)
    ensures m.source == ""
    ensures m.description == (if page.doc.Some? then HtmlDescription(page.doc.value) else "")
    ensures HtmlPhaseImage(page, parse, resolve) != "" ==>
              m.title == HtmlPhaseTitle(page) && m.image == HtmlPhaseImage(page, parse, resolve)
    ensures HtmlPhaseImage(page, parse, resolve) == "" ==>
              && m.title == (if HtmlPhaseTitle(page) != "" then HtmlPhaseTitle(page) else ParseJinaTitle(page.body))
              && m.image == Trim(ExtractFirstImageUrl(page.markdownImage, page.bareImage))
  {
    m := ReadHtml(page, parse, resolve);
    if m.image == "" {
      var jinaTitle := ParseJinaTitle(page.body);
      var textImage := ExtractFirstImageUrl(page.markdownImage, page.bareImage);
      FirstNonEmptyKeepsFirst(m.title, jinaTitle);
      FirstNonEmptyKeepsFirst(m.image, textImage);
      m := m.(title := FirstNonEmpty([m.title, jinaTitle]));
      m := m.(image := FirstNonEmpty([m.image, textImage]));
    }
  }

  /** The HTML half of `fetchAndParse`: the OG values of a document that
      parses, the image resolved against the page. */
  method ReadHtml(page: Page, parse: UrlParser, resolve: Resolver) returns (m: Meta)
    ensures m.source == ""
    ensures m.description == (if page.doc.Some? then HtmlDescription(page.doc.value) else "")
    ensures m.title == HtmlPhaseTitle(page) && m.image == HtmlPhaseImage(page, parse, resolve)
  {
    m := Meta("", "", "", "");
    if page.doc.Some? {
      var doc := page.doc.value;
      var title, description, image := HtmlTitle(doc), HtmlDescription(doc), HtmlImage(doc);
      if image != "" {
        image := ResolveMaybeRelativeUrl(page.target, image, parse, resolve);
      }
      m := Meta(title, description, image, "");
    }
  }

  /** A value already found is never replaced by a later one. */
  lemma FirstNonEmptyKeepsFirst(first: string, second: string)
    ensures Trim(first) != "" ==> FirstNonEmpty([first, second]) == Trim(first)
    ensures Trim(first) == "" ==> FirstNonEmpty([first, second]) == Trim(second)
  {
    var v := [first, second];
    assert v[0] == first && v[1] == second;
    if Trim(first) != "" {
      assert FirstNonEmptyFrom(v, 0) == 0;
    } else if Trim(second) != "" {
      assert FirstNonEmptyFrom(v, 0) == 1;
    } else {
      assert FirstNonEmptyFrom(v, 0) == 2;
    }
  }

  // ---------------------------------------------------------------------
  // FetchMetadata
  // ---------------------------------------------------------------------

  /** What one `fetchAndParse` call returns: an error, or a result and the
      HTTP status. */
  datatype Fetch = FetchError(err: string) | Fetched(meta: Meta, status: int)

  /** The direct result is not trusted: a non-200 status, a bot
      interstitial, or nothing found. */
  predicate NeedsProxy(meta: Meta, status: int)
    ensures status == 200 && 0 < |Trim(meta.title)| < |"cloudflare"| ==> !NeedsProxy(meta, status)
  {
    status != 200 || LooksLikeBotChallenge(meta.title)
    || (meta.image == "" && meta.title == "" && meta.description == "")
  }

  /** `FetchMetadata`, with the outcomes of the direct fetch and of the
      proxy fetch as parameters; `proxyUrl` is what the proxy is asked for. */
  method FetchMetadata(target: string, direct: Fetch, proxy: Fetch)
    returns (r: Result<Meta, string>, proxyUrl: Option<string>)
    ensures direct.FetchError? ==> r == Failure(direct.err) && proxyUrl == None
    ensures direct.Fetched? ==> (proxyUrl.Some? <==> NeedsProxy(direct.meta, direct.status))
    ensures proxyUrl.Some? ==> proxyUrl.value == JinaPrefix + target
    ensures direct.Fetched? && !NeedsProxy(direct.meta, direct.status) ==>
              r == Success(direct.meta.(source := "direct"))
    ensures direct.Fetched? && NeedsProxy(direct.meta, direct.status) && proxy.FetchError? ==>
              r == Success(direct.meta)
    ensures direct.Fetched? && NeedsProxy(direct.meta, direct.status) && proxy.Fetched? ==>
              && r.Success? && r.value.source == "jina"
              && PrefersExisting(r.value.title, direct.meta.title, proxy.meta.title)
              && PrefersExisting(r.value.description, direct.meta.description, proxy.meta.description)
              && PrefersExisting(r.value.image, direct.meta.image, proxy.meta.image)
  {
    if direct.FetchError? {
      return Failure(direct.err), None;
    }
    var meta, status := direct.meta, direct.status;
    if NeedsProxy(meta, status) {
      proxyUrl := Some(JinaPrefix + target);
      if proxy.FetchError? {
        return Success(meta), proxyUrl;
      }
      var merged := MergePreferExisting(meta, proxy.meta);
      merged := merged.(source := "jina");
      return Success(merged), proxyUrl;
    }
    meta := meta.(source := "direct");
    return Success(meta), None;
  }
}
