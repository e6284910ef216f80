/**
 * The content script: the selector tiers, the footer slicer, the merge of JSON-LD
 * with DOM text, and the length gate before a scrape is handed to the background.
 *
 * The page is an input value. `Dom.query` maps a CSS selector to the `innerText`, not yet
 * trimmed, of the first element `document.querySelector` finds for it (absent when
 * nothing matches); `indeedPane` is the same map scoped to the element
 * `#jobsearch-ViewjobPaneWrapper` when the page has one.
 */
module Scrape {
  import opened Wrappers
  import opened Text
  import opened Json
  import opened JsonLd
  import opened JobStore

  datatype Dom = Dom(query: map<string, string>, indeedPane: Option<map<string, string>>, bodyText: string)

  /**
   * Everything `scrapePage` reads. `ldBlocks` are the parsed `application/ld+json`
   * scripts in document order (None where `JSON.parse` throws). `ogTitle` and
   * `ogSiteName` are what `getMeta` returns: `""` when there is no such meta tag,
   * None when the tag has no `content`. `renderedDescription` is the `innerText` of
   * the element built from the description markup; `today` is the date part of
   * `new Date().toISOString()`.
   */
  datatype Page = Page(
    ldBlocks: seq<Option<Json>>,
    ogTitle: Option<string>,
    ogSiteName: Option<string>,
    docTitle: string,
    renderedDescription: string,
    href: string,
    hostname: string,
    today: string,
    dom: Dom)

  /* ---------------- selector picking ---------------- */

  /** The `innerText` of the first match of each selector under `root`, in selector order. */
  function Candidates(root: map<string, string>, selectors: seq<string>): (r: seq<Option<string>>)
    ensures |r| == |selectors|
    ensures forall i :: 0 <= i < |selectors| ==> (r[i].Some? <==> selectors[i] in root)
    ensures forall i :: 0 <= i < |selectors| && selectors[i] in root ==> r[i] == Some(root[selectors[i]])
  {
    seq(|selectors|, i requires 0 <= i < |selectors| =>
      if selectors[i] in root then Some(root[selectors[i]]) else None)
  }

  /** No element, or one whose text is only white space. */
  predicate Blank(c: Option<string>) {
    c.None? || Trim(c.value) == ""
  }

  /** Candidate `i` is the first one that is not blank. */
  predicate Winner(cands: seq<Option<string>>, i: int) {
    && 0 <= i < |cands|
    && !Blank(cands[i])
    && forall j :: 0 <= j < i ==> Blank(cands[j])
  }

  /** What `pick` returns: the trimmed text of the first candidate that is not blank, else `""`. */
  function FirstNonBlank(cands: seq<Option<string>>): (r: string)
    ensures Trimmed(r)
    ensures r == "" <==> forall i :: 0 <= i < |cands| ==> Blank(cands[i])
    ensures r != "" ==> exists i :: Winner(cands, i) && r == Trim(cands[i].value)
  {
    if |cands| == 0 then ""
    else if !Blank(cands[0]) then
      assert Winner(cands, 0);
      Trim(cands[0].value)
    else
      var r := FirstNonBlank(cands[1..]);
      assert forall i :: 0 <= i < |cands| - 1 ==> cands[1..][i] == cands[i + 1];
      if r != "" then
        var i :| Winner(cands[1..], i) && r == Trim(cands[1..][i].value);
        assert Winner(cands, i + 1);
        r
      else r
  }

  /** Selectors after the winning one are never consulted; after all-blank ones, the rest decide. */
  lemma {:induction false} FirstNonBlankAppend(c: seq<Option<string>>, d: seq<Option<string>>)
    ensures FirstNonBlank(c) != "" ==> FirstNonBlank(c + d) == FirstNonBlank(c)
    ensures FirstNonBlank(c) == "" ==> FirstNonBlank(c + d) == FirstNonBlank(d)
  {
    if |c| > 0 {
      assert (c + d)[0] == c[0];
      assert (c + d)[1..] == c[1..] + d;
      FirstNonBlankAppend(c[1..], d);
    } else {
      assert c + d == d;
    }
  }

  /** `pick`: try the candidates in order and return the first trimmed text that is not empty. */
  method Pick(cands: seq<Option<string>>) returns (text: string)
    ensures text == FirstNonBlank(cands)
  {
    for i := 0 to |cands|
      invariant FirstNonBlank(cands) == FirstNonBlank(cands[i..])
    {
      assert cands[i..][1..] == cands[i + 1..];
      if cands[i].Some? && |Trim(cands[i].value)| > 0 {
        return Trim(cands[i].value);
      }
    }
    return "";
  }

  /* ---------------- the tiers ---------------- */

  /** The four texts a tier scrapes from the DOM. */
  datatype DomData = DomData(desc: string, title: string, company: string, location: string)

  const IndeedDescription := ["#jobDescriptionText", ".jobsearch-jobDescriptionText"]
  const IndeedTitle := ["h1", ".jobsearch-JobInfoHeader-title"]
  const IndeedCompany := ["div[data-company-name]"]
  const IndeedLocation := [".companyLocation"]

  const LinkedInDescription := [".description__text", ".jobs-description__content", "#job-details"]
  const LinkedInTitle := ["h1.top-card-layout__title", "h1"]
  const LinkedInCompany := ["a.topcard__org-name-link"]
  const LinkedInLocation := ["span.topcard__flavor--bullet"]

  const GenericDescription := ["article", "main", ".job-description", ".description"]
  const GenericTitle := ["h1"]
  const GenericCompany := [".company", ".org"]
  const GenericLocation := [".location"]

  /** The footer phrases the generic tier cuts at. */
  const StopWords := ["Related jobs", "Similar jobs", "People also viewed", "You might also like"]

  /** Queries of the Indeed tier run inside the job pane when there is one, else over the document. */
  function IndeedRoot(dom: Dom): (r: map<string, string>)
    ensures dom.indeedPane.Some? ==> r == dom.indeedPane.value
    ensures dom.indeedPane.None? ==> r == dom.query
  {
    dom.indeedPane.GetOr(dom.query)
  }

  function IndeedTier(dom: Dom): DomData {
    var p := IndeedRoot(dom);
    DomData(
      FirstNonBlank(Candidates(p, IndeedDescription)),
      FirstNonBlank(Candidates(p, IndeedTitle)),
      FirstNonBlank(Candidates(p, IndeedCompany)),
      FirstNonBlank(Candidates(p, IndeedLocation)))
  }

  function LinkedInTier(dom: Dom): DomData {
    DomData(
      FirstNonBlank(Candidates(dom.query, LinkedInDescription)),
      FirstNonBlank(Candidates(dom.query, LinkedInTitle)),
      FirstNonBlank(Candidates(dom.query, LinkedInCompany)),
      FirstNonBlank(Candidates(dom.query, LinkedInLocation)))
  }

  /** The generic description before slicing: the first container with text, else the whole body. */
  function GenericText(dom: Dom): (r: string)
    ensures var picked := FirstNonBlank(Candidates(dom.query, GenericDescription));
      && (picked != "" ==> r == picked)
      && (picked == "" ==> r == dom.bodyText)
  {
    var picked := FirstNonBlank(Candidates(dom.query, GenericDescription));
    if picked != "" then picked else dom.bodyText
  }

  function GenericTier(dom: Dom): DomData {
    DomData(
      Denoised(GenericText(dom)),
      FirstNonBlank(Candidates(dom.query, GenericTitle)),
      FirstNonBlank(Candidates(dom.query, GenericCompany)),
      FirstNonBlank(Candidates(dom.query, GenericLocation)))
  }

  /** `scrapeIndeedDOM`. */
  method ScrapeIndeedDom(dom: Dom) returns (d: DomData)
    ensures d == IndeedTier(dom)
    ensures Trimmed(d.desc) && Trimmed(d.title) && Trimmed(d.company) && Trimmed(d.location)
  {
    var p := IndeedRoot(dom);
    var desc := Pick(Candidates(p, IndeedDescription));
    var title := Pick(Candidates(p, IndeedTitle));
    var company := Pick(Candidates(p, IndeedCompany));
    var location := Pick(Candidates(p, IndeedLocation));
    d := DomData(desc, title, company, location);
  }

  /** `scrapeLinkedInDOM`. */
  method ScrapeLinkedInDom(dom: Dom) returns (d: DomData)
    ensures d == LinkedInTier(dom)
    ensures Trimmed(d.desc) && Trimmed(d.title) && Trimmed(d.company) && Trimmed(d.location)
  {
    var desc := Pick(Candidates(dom.query, LinkedInDescription));
    var title := Pick(Candidates(dom.query, LinkedInTitle));
    var company := Pick(Candidates(dom.query, LinkedInCompany));
    var location := Pick(Candidates(dom.query, LinkedInLocation));
    d := DomData(desc, title, company, location);
  }

  /* ---------------- the footer slicer ---------------- */

  /**
   * One step of the slicer for the phrase `word`. The index is searched in `lower`, the
   * lower-cased text as it was before any cut, and compared with 70% of the length of
   * the text as it is now (`idx > desc.length * 0.7`, stated exactly as `10 idx > 7 len`).
   */
  function Cut(lower: string, desc: string, word: string): (r: string)
    ensures var idx := LastIndexOf(lower, ToLower(word));
      r != desc ==> idx > -1 && 10 * idx > 7 * |desc| && r == Trim(Prefix(desc, idx))
  {
    var idx := LastIndexOf(lower, ToLower(word));
    if idx > -1 && 10 * idx > 7 * |desc| then Trim(Prefix(desc, idx)) else desc
  }

  /** The slicer after the phrases `words`, in order. */
  function CutAll(lower: string, desc: string, words: seq<string>): string
    decreases |words|
  {
    if |words| == 0 then desc
    else Cut(lower, CutAll(lower, desc, words[..|words| - 1]), words[|words| - 1])
  }

  /** The generic tier's description after the footer slicer. */
  function Denoised(desc: string): string {
    CutAll(ToLower(desc), desc, StopWords)
  }

  /** A cut keeps a contiguous piece of the text and never makes it longer. */
  lemma CutShrinks(lower: string, desc: string, word: string)
    ensures |Cut(lower, desc, word)| <= |desc|
    ensures Infix(Cut(lower, desc, word), desc)
  {
    var idx := LastIndexOf(lower, ToLower(word));
    if idx > -1 && 10 * idx > 7 * |desc| {
      var p := Prefix(desc, idx);
      PrefixIsInfix(p, desc);
      TrimPiece(p);
      InfixTransitive(Trim(p), p, desc);
    } else {
      assert InfixAt(desc, desc, 0);
    }
  }

  /** The slicer returns a contiguous piece of its input, never longer than it. */
  lemma {:induction false} CutAllShrinks(lower: string, desc: string, words: seq<string>)
    ensures |CutAll(lower, desc, words)| <= |desc|
    ensures Infix(CutAll(lower, desc, words), desc)
    decreases |words|
  {
    if |words| == 0 {
      assert InfixAt(desc, desc, 0);
    } else {
      var mid := CutAll(lower, desc, words[..|words| - 1]);
      CutAllShrinks(lower, desc, words[..|words| - 1]);
      CutShrinks(lower, mid, words[|words| - 1]);
      InfixTransitive(CutAll(lower, desc, words), mid, desc);
    }
  }

  /**
   * A phrase is only cut in the bottom 30%: when no phrase occurs past 70% of the
   * text, the slicer changes nothing.
   */
  lemma {:induction false} CutAllKeepsEarlyPhrases(lower: string, desc: string, words: seq<string>)
    requires forall i :: 0 <= i < |words| ==> 10 * LastIndexOf(lower, ToLower(words[i])) <= 7 * |desc|
    ensures CutAll(lower, desc, words) == desc
    decreases |words|
  {
    if |words| > 0 {
      var init := words[..|words| - 1];
      assert forall i :: 0 <= i < |init| ==> init[i] == words[i];
      CutAllKeepsEarlyPhrases(lower, desc, init);
    }
  }

  /** The denoised text is a piece of the raw text, and text without late footer phrases is kept whole. */
  lemma DenoisedPiece(desc: string)
    ensures |Denoised(desc)| <= |desc| && Infix(Denoised(desc), desc)
    ensures (forall i :: 0 <= i < |StopWords| ==> 10 * LastIndexOf(ToLower(desc), ToLower(StopWords[i])) <= 7 * |desc|)
      ==> Denoised(desc) == desc
  {
    CutAllShrinks(ToLower(desc), desc, StopWords);
    if forall i :: 0 <= i < |StopWords| ==> 10 * LastIndexOf(ToLower(desc), ToLower(StopWords[i])) <= 7 * |desc| {
      CutAllKeepsEarlyPhrases(ToLower(desc), desc, StopWords);
    }
  }

  /**
   * A late phrase is cut: when the phrase `words[w]` last occurs past 70% of the text,
   * every phrase before it occurs only in the first 70% of the text (or not at all), and
   * every phrase after it occurs only in the first 70% of the cut text (or not at all),
   * the slicer returns the trimmed text before that occurrence.
   */
  lemma {:induction false} CutAllLatePhrase(lower: string, desc: string, words: seq<string>, w: int)
    requires 0 <= w < |words|
    requires LastIndexOf(lower, ToLower(words[w])) > -1
    requires 10 * LastIndexOf(lower, ToLower(words[w])) > 7 * |desc|
    requires forall i :: 0 <= i < w ==> 10 * LastIndexOf(lower, ToLower(words[i])) <= 7 * |desc|
    requires forall i :: w < i < |words| ==>
      10 * LastIndexOf(lower, ToLower(words[i])) <= 7 * |Trim(Prefix(desc, LastIndexOf(lower, ToLower(words[w]))))|
    ensures CutAll(lower, desc, words) == Trim(Prefix(desc, LastIndexOf(lower, ToLower(words[w]))))
    decreases |words|
  {
    var init := words[..|words| - 1];
    assert forall i :: 0 <= i < |init| ==> init[i] == words[i];
    if w == |words| - 1 {
      CutAllKeepsEarlyPhrases(lower, desc, init);
    } else {
      CutAllLatePhrase(lower, desc, init, w);
    }
  }

  /**
   * The footer slicer on a text whose stop phrase `StopWords[w]` sits in its bottom 30%,
   * the earlier phrases in the first 70% of the text and the later ones in the first 70%
   * of the cut text: the text is cut just before the phrase's last occurrence and trimmed.
   */
  lemma DenoisedLatePhrase(desc: string, w: int)
    requires 0 <= w < |StopWords|
    requires LastIndexOf(ToLower(desc), ToLower(StopWords[w])) > -1
    requires 10 * LastIndexOf(ToLower(desc), ToLower(StopWords[w])) > 7 * |desc|
    requires forall i :: 0 <= i < w ==> 10 * LastIndexOf(ToLower(desc), ToLower(StopWords[i])) <= 7 * |desc|
    requires forall i :: w < i < |StopWords| ==>
      10 * LastIndexOf(ToLower(desc), ToLower(StopWords[i])) <= 7 * |Trim(Prefix(desc, LastIndexOf(ToLower(desc), ToLower(StopWords[w]))))|
    ensures var idx := LastIndexOf(ToLower(desc), ToLower(StopWords[w]));
      idx <= |desc| && Denoised(desc) == Trim(desc[..idx])
  {
    var lower := ToLower(desc);
    var idx := LastIndexOf(lower, ToLower(StopWords[w]));
    CutAllLatePhrase(lower, desc, StopWords, w);
    assert Denoised(desc) == Trim(Prefix(desc, idx));
  }

  /** A lone late phrase: when no other phrase occurs at all, the slicer cuts before it. */
  lemma DenoisedLonePhrase(desc: string, w: int)
    requires 0 <= w < |StopWords|
    requires forall i :: 0 <= i < |StopWords| && i != w ==> LastIndexOf(ToLower(desc), ToLower(StopWords[i])) == -1
    requires LastIndexOf(ToLower(desc), ToLower(StopWords[w])) > -1
    requires 10 * LastIndexOf(ToLower(desc), ToLower(StopWords[w])) > 7 * |desc|
    ensures var idx := LastIndexOf(ToLower(desc), ToLower(StopWords[w]));
      idx <= |desc| && Denoised(desc) == Trim(desc[..idx])
  {
    DenoisedLatePhrase(desc, w);
  }

  /** The slicer loop of `scrapeGenericDOM` over the phrases `words`. */
  method Slice(text: string, words: seq<string>) returns (desc: string)
    ensures desc == CutAll(ToLower(text), text, words)
  {
    desc := text;
    var lower := ToLower(text);
    for i := 0 to |words|
      invariant desc == CutAll(lower, text, words[..i])
    {
      assert words[..i + 1][..i] == words[..i];
      var idx := LastIndexOf(lower, ToLower(words[i]));
      if idx > -1 && 10 * idx > 7 * |desc| {
        desc := Trim(Prefix(desc, idx));
      }
    }
    assert words[..|words|] == words;
  }

  /** `scrapeGenericDOM`: the description container or the body, then the footer slicer. */
  method ScrapeGenericDom(dom: Dom) returns (d: DomData)
    ensures d == GenericTier(dom)
  {
    var desc := Pick(Candidates(dom.query, GenericDescription));
    if desc == "" {
      desc := dom.bodyText;
    }
    desc := Slice(desc, StopWords);
    var title := Pick(Candidates(dom.query, GenericTitle));
    var company := Pick(Candidates(dom.query, GenericCompany));
    var location := Pick(Candidates(dom.query, GenericLocation));
    d := DomData(desc, title, company, location);
  }

  /* ---------------- the merge ---------------- */

  datatype Family = Indeed | LinkedIn | Generic

  /** Which strategy a host name selects; "indeed" is tested before "linkedin". */
  function FamilyOf(host: string): (f: Family)
    ensures f == Indeed <==> Contains(host, "indeed")
    ensures f == LinkedIn <==> !Contains(host, "indeed") && Contains(host, "linkedin")
    ensures f == Generic <==> !Contains(host, "indeed") && !Contains(host, "linkedin")
  {
    if Contains(host, "indeed") then Indeed
    else if Contains(host, "linkedin") then LinkedIn
    else Generic
  }

  function Tier(family: Family, dom: Dom): DomData {
    match family
    case Indeed => IndeedTier(dom)
    case LinkedIn => LinkedInTier(dom)
    case Generic => GenericTier(dom)
  }

  /** The description rule of each strategy, comparing the baseline text with the tier's. */
  function ChooseDescription(family: Family, base: string, dom: string): (r: string)
    ensures family != Generic ==> r == (if |dom| > |base| then dom else base)
    ensures family == Generic ==> r == (if |dom| > 500 then dom else base)
  {
    if family != Generic then (if dom != "" && |dom| > |base| then dom else base)
    else if dom != "" && |dom| > 500 then dom
    else base
  }

  /** On the curated sites the longer description wins; ties keep the baseline. */
  lemma CuratedPicksLonger(family: Family, base: string, dom: string)
    requires family != Generic
    ensures |ChooseDescription(family, base, dom)| == (if |dom| > |base| then |dom| else |base|)
    ensures ChooseDescription(family, base, dom) == base || ChooseDescription(family, base, dom) == dom
  {
  }

  /** The gap fill for a string field: the DOM text replaces an empty baseline value. */
  function FillText(base: string, dom: string): (r: string)
    ensures base != "" ==> r == base
    ensures base == "" ==> r == dom
  {
    if base == "" && dom != "" then dom else base
  }

  /** The same gap fill for the company, which may be null. */
  function FillCompany(base: Option<string>, dom: string): (r: Option<string>)
    ensures base.Some? && base.value != "" ==> r == base
    ensures (base.None? || base.value == "") && dom != "" ==> r == Some(dom)
    ensures (base.None? || base.value == "") && dom == "" ==> r == base
  {
    if (base.None? || base.value == "") && dom != "" then Some(dom) else base
  }

  /** The API limit on the description. */
  const MaxDescription := 25000

  /** The cap: a longer description keeps only its first `MaxDescription` characters. */
  function Capped(s: string): (r: string)
    ensures |r| <= MaxDescription
    ensures r <= s
    ensures |s| <= MaxDescription ==> r == s
    ensures |s| > MaxDescription ==> r == s[..MaxDescription]
  {
    if |s| > MaxDescription then Prefix(s, MaxDescription) else s
  }

  /** The title baseline: JSON-LD, else `og:title`, else the document title. */
  function BaselineTitle(posting: Json, page: Page): (r: string)
    ensures var t := Flatten(Prop(posting, "title"));
      && (t != "" ==> r == t)
      && (t == "" && page.ogTitle.Some? && page.ogTitle.value != "" ==> r == page.ogTitle.value)
      && (t == "" && (page.ogTitle.None? || page.ogTitle.value == "") ==> r == page.docTitle)
  {
    var t := Flatten(Prop(posting, "title"));
    if t != "" then t
    else if page.ogTitle.Some? && page.ogTitle.value != "" then page.ogTitle.value
    else page.docTitle
  }

  /** The company baseline: JSON-LD, else `og:site_name` (which may be null). */
  function BaselineCompany(posting: Json, page: Page): (r: Option<string>)
    ensures var c := Flatten(Prop(posting, "hiringOrganization"));
      && (c != "" ==> r == Some(c))
      && (c == "" ==> r == page.ogSiteName)
  {
    var c := Flatten(Prop(posting, "hiringOrganization"));
    if c != "" then Some(c) else page.ogSiteName
  }

  /** The JSON-LD posting the page offers, `{}` when it has none. */
  function PagePosting(page: Page): (r: Json)
    ensures FirstPosting(page.ldBlocks).Some? ==> r == FirstPosting(page.ldBlocks).value && IsPosting(r)
    ensures FirstPosting(page.ldBlocks).None? ==> r == Obj([])
  {
    FirstPosting(page.ldBlocks).GetOr(Obj([]))
  }

  /** The record built from JSON-LD and meta tags alone. */
  function Baseline(page: Page): ScrapedJobData {
    var ld := PagePosting(page);
    ScrapedJobData(
      BaselineTitle(ld, page),
      BaselineCompany(ld, page),
      Flatten(Prop(ld, "jobLocation")),
      ExtractSalary(ld),
      ExtractDescription(ld, page.renderedDescription),
      None,
      ExtractDatePosted(ld),
      ExtractDateClosing(ld),
      page.href,
      page.today)
  }

  /** The baseline after the strategy's description rule, the gap fill and the length cap. */
  function Enhanced(base: ScrapedJobData, family: Family, dom: DomData): ScrapedJobData {
    base.(
      description := Capped(ChooseDescription(family, base.description, dom.desc)),
      title := FillText(base.title, dom.title),
      company := FillCompany(base.company, dom.company),
      location := FillText(base.location, dom.location))
  }

  /** What `scrapePage` returns for `page`. */
  function Scraped(page: Page): ScrapedJobData {
    var family := FamilyOf(page.hostname);
    Enhanced(Baseline(page), family, Tier(family, page.dom))
  }

  /** Step 1 of `scrapePage`: the baseline from JSON-LD and the meta tags. */
  method ScrapeBaseline(page: Page) returns (data: ScrapedJobData)
    ensures data == Baseline(page)
  {
    var ld := SelectJobPosting(page.ldBlocks);
    var jsonLd := ld.GetOr(Obj([]));
    data := ScrapedJobData(
      BaselineTitle(jsonLd, page),
      BaselineCompany(jsonLd, page),
      Flatten(Prop(jsonLd, "jobLocation")),
      ExtractSalary(jsonLd),
      ExtractDescription(jsonLd, page.renderedDescription),
      None,
      ExtractDatePosted(jsonLd),
      ExtractDateClosing(jsonLd),
      page.href,
      page.today);
  }

  /** Step 2 of `scrapePage`: run the host's tier and apply its description rule. */
  method DomStrategy(host: string, dom: Dom, baseDescription: string) returns (domData: DomData, description: string)
    ensures domData == Tier(FamilyOf(host), dom)
    ensures description == ChooseDescription(FamilyOf(host), baseDescription, domData.desc)
  {
    description := baseDescription;
    if Contains(host, "indeed") {
      domData := ScrapeIndeedDom(dom);
      if domData.desc != "" && |domData.desc| > |description| {
        description := domData.desc;
      }
    } else if Contains(host, "linkedin") {
      domData := ScrapeLinkedInDom(dom);
      if domData.desc != "" && |domData.desc| > |description| {
        description := domData.desc;
      }
    } else {
      domData := ScrapeGenericDom(dom);
      if domData.desc != "" && |domData.desc| > 500 {
        description := domData.desc;
      }
    }
  }

  /** `scrapePage`: the baseline, the DOM strategy, the gap fill and the length cap. */
  method ScrapePage(page: Page) returns (data: ScrapedJobData)
    ensures data == Scraped(page)
  {
    data := ScrapeBaseline(page);
    ghost var base := data;
    var domData, description := DomStrategy(page.hostname, page.dom, data.description);
    data := data.(description := description);
    if data.title == "" && domData.title != "" {
      data := data.(title := domData.title);
    }
    if (data.company.None? || data.company.value == "") && domData.company != "" {
      data := data.(company := Some(domData.company));
    }
    if data.location == "" && domData.location != "" {
      data := data.(location := domData.location);
    }
    if |data.description| > 25000 {
      data := data.(description := Prefix(data.description, 25000));
    }
    assert data == Enhanced(base, FamilyOf(page.hostname), domData);
  }

  /**
   * The description sent is the text the strategy's rule chooses between the baseline
   * and the tier, cut to its first 25000 characters when it is longer; so it is at most
   * 25000 characters and a prefix of the baseline or of the tier's text.
   */
  lemma ScrapedDescription(page: Page)
    ensures var d := Scraped(page).description;
      var c := ChooseDescription(FamilyOf(page.hostname), Baseline(page).description, Tier(FamilyOf(page.hostname), page.dom).desc);
      && (|c| <= MaxDescription ==> d == c)
      && (|c| > MaxDescription ==> d == c[..MaxDescription])
      && |d| <= MaxDescription
      && (d <= Baseline(page).description || d <= Tier(FamilyOf(page.hostname), page.dom).desc)
  {
  }

  /**
   * Only the description, title, company and location can differ from the baseline,
   * and a metadata field changes only when the baseline has nothing for it.
   */
  lemma ScrapedKeepsBaseline(page: Page)
    ensures var s, b := Scraped(page), Baseline(page);
      && s.salary == b.salary && s.datePosted == b.datePosted && s.dateClosing == b.dateClosing
      && s.url == page.href && s.dateExtracted == page.today && s.displayedDescription.None?
      && (b.title != "" ==> s.title == b.title)
      && (b.location != "" ==> s.location == b.location)
      && (b.company.Some? && b.company.value != "" ==> s.company == b.company)
  {
  }

  /** On a host naming both sites the Indeed strategy is used. */
  lemma IndeedFirst(host: string)
    requires Contains(host, "indeed") && Contains(host, "linkedin")
    ensures FamilyOf(host) == Indeed
  {
  }

  /** A description shorter than this is rejected before anything is sent. */
  const MinDescription := 50

  /** `scrapeAndSend`: the JOB_SCRAPED message, or None when the page is rejected with an alert. */
  method ScrapeAndSend(page: Page) returns (sent: Option<ScrapedJobData>)
    ensures sent.Some? <==> |Scraped(page).description| >= MinDescription
    ensures sent.Some? ==> sent.value == Scraped(page)
  {
    var result := ScrapePage(page);
    if result.description == "" || |result.description| < 50 {
      return None;
    }
    return Some(result);
  }
}
