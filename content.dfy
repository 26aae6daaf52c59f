/**
 * `ContentManager`: reads the server's directory listing, plans which
 * configured ZIM files to (re)download, downloads each through a `.tmp`
 * file that is renamed into place, and removes leftover `.tmp` files.
 * The listing page, every HTTP reply and the stored content state are
 * inputs; downloads run one after another in planning order.
 */
module Content {
  import opened Wrappers
  import opened Strings
  import opened Files
  import opened Configuration

  // ---------------------------------------------------------------------------
  // The listing

  /** What follows a link in the parsed page: a text node, or anything else (a tag, or nothing). */
  datatype Sibling = Text(text: string) | NotText

  /** An `<a>` element with its next sibling (the size) and the one after it (the date). */
  datatype Link = Link(href: Option<string>, next: Sibling, afterNext: Sibling)

  /** The listing page: unreachable, or an HTTP status with the links of the body in document order. */
  datatype Page = Unreachable | Page(status: int, links: seq<Link>)

  /** One listed file: its path on the server, its date text and its size. */
  datatype Entry = Entry(href: string, date: string, size: int)

  /** What the listing loop does with one link: raise, skip it, or keep an entry. */
  datatype Outcome = Raises | Skipped | Kept(entry: Entry)

  /**
   * One iteration of the listing loop. A `.zim` link must be followed by two
   * text nodes, or reading them raises; it is kept when the date (without
   * `[]`) parses as `%Y-%m-%d %H:%M` and the size (without `()`) as an integer.
   */
  function LinkOutcome(l: Link): (o: Outcome)
    ensures o.Raises? <==> l.href.Some? && EndsWith(l.href.value, ".zim") && (l.next.NotText? || l.afterNext.NotText?)
    ensures o.Kept? <==>
      && l.href.Some? && EndsWith(l.href.value, ".zim") && l.next.Text? && l.afterNext.Text?
      && IsListingDate(Strip(l.afterNext.text, {'[', ']'}))
      && ParseInt(Strip(l.next.text, {'(', ')'})).Some?
    ensures o.Kept? ==>
      && o.entry.href == l.href.value
      && o.entry.date == Strip(l.afterNext.text, {'[', ']'})
      && Some(o.entry.size) == ParseInt(Strip(l.next.text, {'(', ')'}))
  {
    if l.href.None? || !EndsWith(l.href.value, ".zim") then Skipped
    else if l.next.NotText? || l.afterNext.NotText? then Raises
    else
      var size := Strip(l.next.text, {'(', ')'});
      var date := Strip(l.afterNext.text, {'[', ']'});
      var n := ParseInt(size);
      if IsListingDate(date) && n.Some? then Kept(Entry(l.href.value, date, n.value)) else Skipped
  }

  /** The entries kept from a run of per-link outcomes, or `None` once one of them raises. */
  function Collect(os: seq<Outcome>): Option<seq<Entry>> {
    if os == [] then Some([])
    else
      match Collect(os[..|os| - 1])
      case None => None
      case Some(es) =>
        match os[|os| - 1]
        case Raises => None
        case Skipped => Some(es)
        case Kept(e) => Some(es + [e])
  }

  function Outcomes(links: seq<Link>): seq<Outcome> {
    seq(|links|, i requires 0 <= i < |links| => LinkOutcome(links[i]))
  }

  /** The entries the listing loop collects from `links`, or `None` when it raises. */
  function Scan(links: seq<Link>): Option<seq<Entry>> {
    Collect(Outcomes(links))
  }

  /** `_get_available_content`: a status other than 200 raises, as does a failed request. */
  function Listing(page: Page): Option<seq<Entry>> {
    if page.Unreachable? || page.status != 200 then None else Scan(page.links)
  }

  lemma {:induction false} CollectConcat(a: seq<Outcome>, b: seq<Outcome>)
    ensures Collect(a + b) ==
      if Collect(a).None? || Collect(b).None? then None else Some(Collect(a).value + Collect(b).value)
    decreases |b|
  {
    if b == [] {
      assert a + b == a;
      assert Collect(b) == Some([]);
      if Collect(a).Some? {
        assert Collect(a).value + [] == Collect(a).value;
      }
    } else {
      var b' := b[..|b| - 1];
      assert (a + b)[..|a + b| - 1] == a + b';
      assert (a + b)[|a + b| - 1] == b[|b| - 1];
      CollectConcat(a, b');
      if Collect(a).Some? && Collect(b').Some? && b[|b| - 1].Kept? {
        assert Collect(a).value + Collect(b').value + [b[|b| - 1].entry]
            == Collect(a).value + (Collect(b').value + [b[|b| - 1].entry]);
      }
    }
  }

  /** The listing of two runs of links is the listing of the first followed by that of the second. */
  lemma ScanConcat(a: seq<Link>, b: seq<Link>)
    ensures Scan(a + b) ==
      if Scan(a).None? || Scan(b).None? then None else Some(Scan(a).value + Scan(b).value)
  {
    OutcomesConcat(a, b);
    CollectConcat(Outcomes(a), Outcomes(b));
  }

  lemma OutcomesConcat(a: seq<Link>, b: seq<Link>)
    ensures Outcomes(a + b) == Outcomes(a) + Outcomes(b)
  {
    var ab := a + b;
    forall i | 0 <= i < |ab|
      ensures Outcomes(ab)[i] == (Outcomes(a) + Outcomes(b))[i]
    {
      if i < |a| {
        SameOutcomeAt(ab, i, a, i);
      } else {
        SameOutcomeAt(ab, i, b, i - |a|);
      }
    }
  }

  lemma SameOutcomeAt(xs: seq<Link>, i: nat, ys: seq<Link>, j: nat)
    requires i < |xs| && j < |ys| && xs[i] == ys[j]
    ensures Outcomes(xs)[i] == Outcomes(ys)[j]
  {
  }

  /** Reading one more link extends the listing by that link's outcome. */
  lemma ScanStep(links: seq<Link>, i: nat)
    requires i < |links|
    ensures Scan(links[..i + 1]) ==
      match Scan(links[..i])
      case None => None
      case Some(es) =>
        match LinkOutcome(links[i])
        case Raises => None
        case Skipped => Some(es)
        case Kept(e) => Some(es + [e])
  {
    var os := Outcomes(links[..i + 1]);
    assert os[..i] == Outcomes(links[..i]);
    assert os[i] == LinkOutcome(links[i]);
  }

  /** Once a prefix of the links raises, the whole listing does. */
  lemma ScanRaisesFromPrefix(links: seq<Link>, i: nat)
    requires i <= |links| && Scan(links[..i]).None?
    ensures Scan(links).None?
  {
    ScanConcat(links[..i], links[i..]);
    assert links[..i] + links[i..] == links;
  }

  lemma {:induction false} CollectRaises(os: seq<Outcome>)
    ensures Collect(os).None? <==> exists i :: 0 <= i < |os| && os[i].Raises?
  {
    if os != [] {
      var init := os[..|os| - 1];
      CollectRaises(init);
      assert forall i :: 0 <= i < |init| ==> init[i] == os[i];
    }
  }

  /** The listing raises exactly when some `.zim` link lacks its two text siblings. */
  lemma ScanRaises(links: seq<Link>)
    ensures Scan(links).None? <==> exists i :: 0 <= i < |links| && LinkOutcome(links[i]).Raises?
  {
    var os := Outcomes(links);
    CollectRaises(os);
    if exists i :: 0 <= i < |links| && LinkOutcome(links[i]).Raises? {
      var i :| 0 <= i < |links| && LinkOutcome(links[i]).Raises?;
      assert os[i].Raises?;
    }
    if exists i :: 0 <= i < |os| && os[i].Raises? {
      var i :| 0 <= i < |os| && os[i].Raises?;
      assert LinkOutcome(links[i]).Raises?;
    }
  }

  lemma {:induction false} CollectKept(os: seq<Outcome>)
    requires Collect(os).Some?
    ensures forall k :: 0 <= k < |Collect(os).value| ==> exists i :: 0 <= i < |os| && os[i] == Kept(Collect(os).value[k])
  {
    if os != [] {
      var init := os[..|os| - 1];
      CollectKept(init);
      assert forall i :: 0 <= i < |init| ==> init[i] == os[i];
    }
  }

  /** Every listed entry is a `.zim` path with a well-formed date, kept from a link of the page. */
  lemma ListedEntriesConform(links: seq<Link>)
    requires Scan(links).Some?
    ensures forall k :: 0 <= k < |Scan(links).value| ==>
      && EndsWith(Scan(links).value[k].href, ".zim")
      && IsListingDate(Scan(links).value[k].date)
      && exists i :: 0 <= i < |links| && LinkOutcome(links[i]) == Kept(Scan(links).value[k])
  {
    var os := Outcomes(links);
    var es := Collect(os).value;
    CollectKept(os);
    forall k | 0 <= k < |es|
      ensures EndsWith(es[k].href, ".zim") && IsListingDate(es[k].date)
    {
      var i :| 0 <= i < |os| && os[i] == Kept(es[k]);
      assert LinkOutcome(links[i]) == Kept(es[k]);
    }
  }

  // ---------------------------------------------------------------------------
  // One download

  /** The `content-length` header of a reply: absent, text `int()` rejects, or a number. */
  datatype Length = Missing | Malformed | Header(value: int)

  /**
   * The server's answer to one download request: refused (the request
   * raised), or a status, a length header and the body; `interrupted` means
   * the stream raised after delivering `body`.
   */
  datatype Reply = Refused | Reply(status: int, length: Length, body: seq<Byte>, interrupted: bool)

  const ChunkSize := 8192

  function TempPath(dest: string): string {
    dest + ".tmp"
  }

  /** `int(headers.get('content-length', 0))`: a missing header counts as 0; malformed text raises. */
  function ExpectedSize(l: Length): Option<int> {
    match l
    case Missing => Some(0)
    case Malformed => None
    case Header(n) => Some(n)
  }

  /**
   * Whether `_download_file` returns true: status 200, a readable length,
   * the temporary file can be created, the stream completes, the size
   * matches when verification is on, and the rename onto `dest` succeeds.
   */
  predicate DownloadSucceeds(dirs: set<string>, dest: string, reply: Reply, verify: bool) {
    && reply.Reply?
    && reply.status == 200
    && ExpectedSize(reply.length).Some?
    && CanWrite(dirs, TempPath(dest))
    && !reply.interrupted
    && (verify ==> |reply.body| == ExpectedSize(reply.length).value)
    && CanWrite(dirs, dest)
  }

  /** The files after `_download_file`: the body placed at `dest` on success; the `.tmp` gone either way. */
  function AfterFetch(files: map<string, FileData>, dirs: set<string>, dest: string, reply: Reply, verify: bool): map<string, FileData> {
    if DownloadSucceeds(dirs, dest, reply, verify) then (files - {TempPath(dest)})[dest := Blob(reply.body)]
    else files - {TempPath(dest)}
  }

  /** A failed download leaves the destination exactly as it was. */
  lemma FailedDownloadKeepsDest(files: map<string, FileData>, dirs: set<string>, dest: string, reply: Reply, verify: bool)
    requires !DownloadSucceeds(dirs, dest, reply, verify)
    ensures dest in AfterFetch(files, dirs, dest, reply, verify) <==> dest in files
    ensures dest in files ==> AfterFetch(files, dirs, dest, reply, verify)[dest] == files[dest]
    ensures TempPath(dest) !in AfterFetch(files, dirs, dest, reply, verify)
  {
    assert |TempPath(dest)| != |dest|;
  }

  /** A successful download places the whole body at `dest` and leaves no `.tmp`; nothing else changes. */
  lemma SucceededDownloadPlacesBody(files: map<string, FileData>, dirs: set<string>, dest: string, reply: Reply, verify: bool)
    requires DownloadSucceeds(dirs, dest, reply, verify)
    ensures var after := AfterFetch(files, dirs, dest, reply, verify);
      && dest in after && after[dest] == Blob(reply.body)
      && TempPath(dest) !in after
      && forall p :: p != dest && p != TempPath(dest) ==> (p in after <==> p in files) && (p in files ==> after[p] == files[p])
  {
    assert |TempPath(dest)| != |dest|;
  }

  /** With verification on, a reply without a length header succeeds only with an empty body. */
  lemma MissingLengthAcceptsOnlyEmpty(dirs: set<string>, dest: string, reply: Reply)
    requires reply.Reply? && reply.length.Missing?
    ensures DownloadSucceeds(dirs, dest, reply, true) ==> reply.body == []
  {
  }

  /** No name ending in `.zim` is a temporary file. */
  lemma ZimIsNotTemp(d: string, x: string)
    requires EndsWith(d, ".zim")
    ensures d != TempPath(x)
  {
    assert TempPath(x)[|TempPath(x)| - 1] == 'p';
  }

  // ---------------------------------------------------------------------------
  // Planning

  /** One entry of `content_state`, keyed by item name. */
  datatype StateEntry = StateEntry(lastUpdated: string, size: int, path: string)

  /** A scheduled `_download_file(entry.href, dest, item)`. */
  datatype Task = Task(entry: Entry, dest: string, item: ContentItem)

  /** The scheduled downloads and the content state, as the planning loop leaves them. */
  datatype Plan = Plan(tasks: seq<Task>, state: map<string, StateEntry>)

  /** What planning reads besides the plan: the data directory, the filter, and which paths exist. */
  datatype Scope = Scope(dataDir: string, downloadAll: bool, languageFilter: seq<string>, present: set<string>)

  /** A listed path belongs to an item when it starts with `"<category>/<name>"`. */
  predicate Matches(item: ContentItem, e: Entry) {
    StartsWith(e.href, item.category + "/" + item.name)
  }

  /** The download is due when the destination is missing or the recorded date differs. */
  predicate NeedsFetch(sc: Scope, state: map<string, StateEntry>, item: ContentItem, e: Entry) {
    PathJoin(sc.dataDir, e.href) !in sc.present || item.name !in state || state[item.name].lastUpdated != e.date
  }

  function Record(t: Task): StateEntry {
    StateEntry(t.entry.date, t.entry.size, t.dest)
  }

  /** The inner loop's body for one item and one listed entry. */
  function Consider(sc: Scope, p: Plan, item: ContentItem, e: Entry): Plan {
    if Matches(item, e) && NeedsFetch(sc, p.state, item, e) then
      var t := Task(e, PathJoin(sc.dataDir, e.href), item);
      Plan(p.tasks + [t], p.state[item.name := Record(t)])
    else p
  }

  /** The inner loop over the listing, for one item. */
  function PlanEntries(sc: Scope, p: Plan, item: ContentItem, es: seq<Entry>): Plan {
    if es == [] then p
    else Consider(sc, PlanEntries(sc, p, item, es[..|es| - 1]), item, es[|es| - 1])
  }

  /** The outer loop's body: an item the filter rejects is skipped. */
  function PlanItem(sc: Scope, p: Plan, item: ContentItem, es: seq<Entry>): Plan {
    if Admits(sc.downloadAll, sc.languageFilter, item) then PlanEntries(sc, p, item, es) else p
  }

  /** The outer loop over the configured items. */
  function PlanItems(sc: Scope, p: Plan, items: seq<ContentItem>, es: seq<Entry>): Plan {
    if items == [] then p
    else PlanItem(sc, PlanItems(sc, p, items[..|items| - 1], es), items[|items| - 1], es)
  }

  /** A task for an admitted item and a listed entry it matches, placed at `data_dir/<href>`. */
  predicate TaskFor(sc: Scope, items: seq<ContentItem>, es: seq<Entry>, t: Task) {
    && t.item in items
    && Admits(sc.downloadAll, sc.languageFilter, t.item)
    && t.entry in es
    && Matches(t.item, t.entry)
    && t.dest == PathJoin(sc.dataDir, t.entry.href)
  }

  /** `r` keeps the tasks of `p0` and adds only tasks for admitted matches. */
  predicate Sound(sc: Scope, items: seq<ContentItem>, es: seq<Entry>, p0: Plan, r: Plan) {
    && p0.tasks <= r.tasks
    && forall k :: |p0.tasks| <= k < |r.tasks| ==> TaskFor(sc, items, es, r.tasks[k])
  }

  lemma ConsiderSound(sc: Scope, items: seq<ContentItem>, es: seq<Entry>, p0: Plan, r: Plan, item: ContentItem, e: Entry)
    requires Sound(sc, items, es, p0, r)
    requires item in items && Admits(sc.downloadAll, sc.languageFilter, item) && e in es
    ensures Sound(sc, items, es, p0, Consider(sc, r, item, e))
  {
  }

  lemma {:induction false} EntriesSound(sc: Scope, items: seq<ContentItem>, es: seq<Entry>, p0: Plan, r: Plan, item: ContentItem, part: seq<Entry>)
    requires Sound(sc, items, es, p0, r)
    requires item in items && Admits(sc.downloadAll, sc.languageFilter, item)
    requires forall k :: 0 <= k < |part| ==> part[k] in es
    ensures Sound(sc, items, es, p0, PlanEntries(sc, r, item, part))
  {
    if part != [] {
      EntriesSound(sc, items, es, p0, r, item, part[..|part| - 1]);
      ConsiderSound(sc, items, es, p0, PlanEntries(sc, r, item, part[..|part| - 1]), item, part[|part| - 1]);
    }
  }

  lemma {:induction false} ItemsSound(sc: Scope, items: seq<ContentItem>, es: seq<Entry>, p0: Plan, r: Plan, part: seq<ContentItem>)
    requires Sound(sc, items, es, p0, r)
    requires forall k :: 0 <= k < |part| ==> part[k] in items
    ensures Sound(sc, items, es, p0, PlanItems(sc, r, part, es))
  {
    if part != [] {
      ItemsSound(sc, items, es, p0, r, part[..|part| - 1]);
      var item := part[|part| - 1];
      if Admits(sc.downloadAll, sc.languageFilter, item) {
        EntriesSound(sc, items, es, p0, PlanItems(sc, r, part[..|part| - 1], es), item, es);
      }
    }
  }

  /**
   * Planning keeps the tasks it starts with and adds only downloads of
   * listed entries matching admitted items, each placed at `data_dir/<href>`.
   */
  lemma PlannedTasksAreAdmittedMatches(sc: Scope, p: Plan, items: seq<ContentItem>, es: seq<Entry>)
    ensures var r := PlanItems(sc, p, items, es);
      && p.tasks <= r.tasks
      && forall k :: |p.tasks| <= k < |r.tasks| ==> TaskFor(sc, items, es, r.tasks[k])
  {
    ItemsSound(sc, items, es, p, p, items);
  }

  /** No task was added after index `from` for the item name `n`. */
  predicate NoNewTask(tasks: seq<Task>, from: nat, n: string) {
    forall k :: from <= k < |tasks| ==> tasks[k].item.name != n
  }

  /**
   * The state records, for every name that got new tasks, the last of them;
   * names without new tasks keep their entry (or its absence).
   */
  ghost predicate Tracks(p0: Plan, r: Plan) {
    && p0.tasks <= r.tasks
    && (forall n :: NoNewTask(r.tasks, |p0.tasks|, n) ==>
          (n in r.state <==> n in p0.state) && (n in r.state ==> r.state[n] == p0.state[n]))
    && (forall k :: |p0.tasks| <= k < |r.tasks| && NoNewTask(r.tasks, k + 1, r.tasks[k].item.name) ==>
          r.tasks[k].item.name in r.state && r.state[r.tasks[k].item.name] == Record(r.tasks[k]))
  }

  lemma ConsiderTracks(sc: Scope, p0: Plan, r: Plan, item: ContentItem, e: Entry)
    requires Tracks(p0, r)
    ensures Tracks(p0, Consider(sc, r, item, e))
  {
    var r' := Consider(sc, r, item, e);
    if r' != r {
      var last := |r.tasks|;
      assert r'.tasks[last].item == item;
      assert forall k :: 0 <= k < last ==> r'.tasks[k] == r.tasks[k];
      forall n | NoNewTask(r'.tasks, |p0.tasks|, n)
        ensures NoNewTask(r.tasks, |p0.tasks|, n) && n != item.name
      {
        assert r'.tasks[last].item.name != n;
      }
      forall k | |p0.tasks| <= k < |r'.tasks| && NoNewTask(r'.tasks, k + 1, r'.tasks[k].item.name)
        ensures r'.tasks[k].item.name in r'.state && r'.state[r'.tasks[k].item.name] == Record(r'.tasks[k])
      {
        if k < last {
          assert r'.tasks[k] == r.tasks[k];
          assert r'.tasks[last].item.name != r.tasks[k].item.name;
          assert NoNewTask(r.tasks, k + 1, r.tasks[k].item.name);
        }
      }
    }
  }

  lemma {:induction false} EntriesTrack(sc: Scope, p0: Plan, r: Plan, item: ContentItem, part: seq<Entry>)
    requires Tracks(p0, r)
    ensures Tracks(p0, PlanEntries(sc, r, item, part))
  {
    if part != [] {
      EntriesTrack(sc, p0, r, item, part[..|part| - 1]);
      ConsiderTracks(sc, p0, PlanEntries(sc, r, item, part[..|part| - 1]), item, part[|part| - 1]);
    }
  }

  lemma {:induction false} ItemsTrack(sc: Scope, p0: Plan, r: Plan, part: seq<ContentItem>, es: seq<Entry>)
    requires Tracks(p0, r)
    ensures Tracks(p0, PlanItems(sc, r, part, es))
  {
    if part != [] {
      ItemsTrack(sc, p0, r, part[..|part| - 1], es);
      var item := part[|part| - 1];
      if Admits(sc.downloadAll, sc.languageFilter, item) {
        EntriesTrack(sc, p0, PlanItems(sc, r, part[..|part| - 1], es), item, es);
      }
    }
  }

  /**
   * After planning, each name that got downloads records the date, size and
   * path of its last one, whatever the downloads later do; every other
   * name's entry is unchanged.
   */
  lemma StateTracksLastTask(sc: Scope, p: Plan, items: seq<ContentItem>, es: seq<Entry>)
    ensures Tracks(p, PlanItems(sc, p, items, es))
  {
    assert p.tasks <= p.tasks;
    ItemsTrack(sc, p, p, items, es);
  }

  /** Every admitted match is current: its file exists and the state holds its date. */
  predicate Current(sc: Scope, state: map<string, StateEntry>, items: seq<ContentItem>, es: seq<Entry>) {
    forall i, j :: 0 <= i < |items| && 0 <= j < |es| && Admits(sc.downloadAll, sc.languageFilter, items[i]) && Matches(items[i], es[j]) ==>
      !NeedsFetch(sc, state, items[i], es[j])
  }

  lemma {:induction false} EntriesIdle(sc: Scope, p: Plan, item: ContentItem, es: seq<Entry>)
    requires forall j :: 0 <= j < |es| && Matches(item, es[j]) ==> !NeedsFetch(sc, p.state, item, es[j])
    ensures PlanEntries(sc, p, item, es) == p
  {
    if es != [] {
      EntriesIdle(sc, p, item, es[..|es| - 1]);
    }
  }

  /** When everything is current, planning schedules nothing and changes no state. */
  lemma {:induction false} PlanIdleWhenCurrent(sc: Scope, p: Plan, items: seq<ContentItem>, es: seq<Entry>)
    requires Current(sc, p.state, items, es)
    ensures PlanItems(sc, p, items, es) == p
  {
    if items != [] {
      var init := items[..|items| - 1];
      assert forall i :: 0 <= i < |init| ==> init[i] == items[i];
      PlanIdleWhenCurrent(sc, p, init, es);
      var item := items[|items| - 1];
      if Admits(sc.downloadAll, sc.languageFilter, item) {
        EntriesIdle(sc, p, item, es);
      }
    }
  }

  lemma {:induction false} EntriesGrow(sc: Scope, p: Plan, item: ContentItem, es: seq<Entry>)
    ensures p.tasks <= PlanEntries(sc, p, item, es).tasks
  {
    if es != [] {
      EntriesGrow(sc, p, item, es[..|es| - 1]);
    }
  }

  lemma {:induction false} ItemsGrow(sc: Scope, p: Plan, items: seq<ContentItem>, es: seq<Entry>)
    ensures p.tasks <= PlanItems(sc, p, items, es).tasks
  {
    if items != [] {
      ItemsGrow(sc, p, items[..|items| - 1], es);
      EntriesGrow(sc, PlanItems(sc, p, items[..|items| - 1], es), items[|items| - 1], es);
    }
  }

  lemma {:induction false} EntriesScheduleMissing(sc: Scope, p: Plan, item: ContentItem, es: seq<Entry>, e: Entry)
    requires e in es && Matches(item, e) && PathJoin(sc.dataDir, e.href) !in sc.present
    ensures Task(e, PathJoin(sc.dataDir, e.href), item) in PlanEntries(sc, p, item, es).tasks
  {
    var init := es[..|es| - 1];
    var before := PlanEntries(sc, p, item, init);
    if e == es[|es| - 1] {
      assert Consider(sc, before, item, e).tasks == before.tasks + [Task(e, PathJoin(sc.dataDir, e.href), item)];
    } else {
      assert e in init;
      EntriesScheduleMissing(sc, p, item, init, e);
      assert before.tasks <= Consider(sc, before, item, es[|es| - 1]).tasks;
    }
  }

  /** A listed match of an admitted item whose file is missing is always scheduled. */
  lemma {:induction false} PlanSchedulesMissing(sc: Scope, p: Plan, items: seq<ContentItem>, es: seq<Entry>, item: ContentItem, e: Entry)
    requires item in items && Admits(sc.downloadAll, sc.languageFilter, item)
    requires e in es && Matches(item, e) && PathJoin(sc.dataDir, e.href) !in sc.present
    ensures Task(e, PathJoin(sc.dataDir, e.href), item) in PlanItems(sc, p, items, es).tasks
  {
    var init := items[..|items| - 1];
    var before := PlanItems(sc, p, init, es);
    if item == items[|items| - 1] {
      EntriesScheduleMissing(sc, before, item, es, e);
    } else {
      assert item in init;
      PlanSchedulesMissing(sc, p, init, es, item, e);
      EntriesGrow(sc, before, items[|items| - 1], es);
    }
  }

  /** Since `p0`, `r` scheduled a download for the name `n` of a file dated `date`. */
  predicate Fetched(p0: Plan, r: Plan, n: string, date: string) {
    exists k :: |p0.tasks| <= k < |r.tasks| && r.tasks[k].item.name == n && r.tasks[k].entry.date == date
  }

  /** The state's record for `n` is absent from `p0` or dated other than `date`. */
  predicate Stale(p0: Plan, n: string, date: string) {
    n !in p0.state || p0.state[n].lastUpdated != date
  }

  /** Some task from `j` on is for `n`, and none after the one returned. */
  lemma {:induction false} LastNewTask(tasks: seq<Task>, j: nat, n: string) returns (k: nat)
    requires j < |tasks| && tasks[j].item.name == n
    ensures j <= k < |tasks| && tasks[k].item.name == n && NoNewTask(tasks, k + 1, n)
    decreases |tasks| - j
  {
    if NoNewTask(tasks, j + 1, n) {
      k := j;
    } else {
      var i :| j + 1 <= i < |tasks| && tasks[i].item.name == n;
      k := LastNewTask(tasks, i, n);
    }
  }

  lemma ConsiderStale(sc: Scope, p0: Plan, r: Plan, item: ContentItem, e: Entry)
    requires Tracks(p0, r) && Matches(item, e) && Stale(p0, item.name, e.date)
    ensures Task(e, PathJoin(sc.dataDir, e.href), item) in Consider(sc, r, item, e).tasks || Fetched(p0, r, item.name, e.date)
  {
    if !NoNewTask(r.tasks, |p0.tasks|, item.name) {
      var j :| |p0.tasks| <= j < |r.tasks| && r.tasks[j].item.name == item.name;
      var k := LastNewTask(r.tasks, j, item.name);
    }
  }

  lemma {:induction false} FetchedGrows(p0: Plan, r: Plan, r': Plan, n: string, date: string)
    requires Fetched(p0, r, n, date) && r.tasks <= r'.tasks
    ensures Fetched(p0, r', n, date)
  {
    var k :| |p0.tasks| <= k < |r.tasks| && r.tasks[k].item.name == n && r.tasks[k].entry.date == date;
    assert r'.tasks[k] == r.tasks[k];
  }

  lemma {:induction false} EntriesStale(sc: Scope, p0: Plan, r: Plan, item: ContentItem, es: seq<Entry>, e: Entry)
    requires Tracks(p0, r) && e in es && Matches(item, e) && Stale(p0, item.name, e.date)
    ensures var r' := PlanEntries(sc, r, item, es);
      Task(e, PathJoin(sc.dataDir, e.href), item) in r'.tasks || Fetched(p0, r', item.name, e.date)
  {
    var init := es[..|es| - 1];
    var before := PlanEntries(sc, r, item, init);
    var after := Consider(sc, before, item, es[|es| - 1]);
    assert before.tasks <= after.tasks;
    if e == es[|es| - 1] {
      EntriesTrack(sc, p0, r, item, init);
      ConsiderStale(sc, p0, before, item, e);
    } else {
      assert e in init;
      EntriesStale(sc, p0, r, item, init, e);
    }
    if Fetched(p0, before, item.name, e.date) {
      FetchedGrows(p0, before, after, item.name, e.date);
    }
  }

  lemma {:induction false} ItemsStale(sc: Scope, p0: Plan, r: Plan, items: seq<ContentItem>, es: seq<Entry>, item: ContentItem, e: Entry)
    requires Tracks(p0, r) && item in items && Admits(sc.downloadAll, sc.languageFilter, item)
    requires e in es && Matches(item, e) && Stale(p0, item.name, e.date)
    ensures var r' := PlanItems(sc, r, items, es);
      Task(e, PathJoin(sc.dataDir, e.href), item) in r'.tasks || Fetched(p0, r', item.name, e.date)
  {
    var init := items[..|items| - 1];
    var before := PlanItems(sc, r, init, es);
    var after := PlanItem(sc, before, items[|items| - 1], es);
    EntriesGrow(sc, before, items[|items| - 1], es);
    if item == items[|items| - 1] {
      ItemsTrack(sc, p0, r, init, es);
      EntriesStale(sc, p0, before, item, es, e);
    } else {
      assert item in init;
      ItemsStale(sc, p0, r, init, es, item, e);
      if Fetched(p0, before, item.name, e.date) {
        FetchedGrows(p0, before, after, item.name, e.date);
      }
    }
  }

  /**
   * A listed match of an admitted item whose recorded date is absent or
   * differs is scheduled, unless the same run already scheduled another file
   * of that name with that date (which rewrote the record).
   */
  lemma PlanSchedulesStale(sc: Scope, p: Plan, items: seq<ContentItem>, es: seq<Entry>, item: ContentItem, e: Entry)
    requires item in items && Admits(sc.downloadAll, sc.languageFilter, item)
    requires e in es && Matches(item, e)
    requires item.name !in p.state || p.state[item.name].lastUpdated != e.date
    ensures var r := PlanItems(sc, p, items, es);
      || Task(e, PathJoin(sc.dataDir, e.href), item) in r.tasks
      || exists k :: |p.tasks| <= k < |r.tasks| && r.tasks[k].item.name == item.name && r.tasks[k].entry.date == e.date
  {
    assert p.tasks <= p.tasks;
    ItemsStale(sc, p, p, items, es, item, e);
  }

  /** Paths built from listed `.zim` entries are `.zim` paths. */
  lemma PlannedDestsAreZim(sc: Scope, p: Plan, items: seq<ContentItem>, es: seq<Entry>)
    requires forall j :: 0 <= j < |es| ==> EndsWith(es[j].href, ".zim")
    ensures var r := PlanItems(sc, p, items, es);
      forall k :: |p.tasks| <= k < |r.tasks| ==> EndsWith(r.tasks[k].dest, ".zim")
  {
    PlannedTasksAreAdmittedMatches(sc, p, items, es);
    forall e | e in es
      ensures EndsWith(PathJoin(sc.dataDir, e.href), ".zim")
    {
      if !StartsWith(e.href, "/") {
        EndsWithAppend(DirPrefix(sc.dataDir), e.href, ".zim");
      }
    }
  }

  /**
   * An admitted item whose name prefixes two listed files with different
   * dates is re-planned on every run: the state holds one date per name, so
   * both files are fetched again, even when present, and the state ends as
   * it started.
   */
  lemma TwoMatchesReplanEveryRun(sc: Scope, item: ContentItem, e1: Entry, e2: Entry)
    requires Admits(sc.downloadAll, sc.languageFilter, item)
    requires Matches(item, e1) && Matches(item, e2) && e1.date != e2.date
    ensures var state := map[item.name := Record(Task(e2, PathJoin(sc.dataDir, e2.href), item))];
      var r := PlanItems(sc, Plan([], state), [item], [e1, e2]);
      && r.tasks == [Task(e1, PathJoin(sc.dataDir, e1.href), item), Task(e2, PathJoin(sc.dataDir, e2.href), item)]
      && r.state == state
  {
    var t1 := Task(e1, PathJoin(sc.dataDir, e1.href), item);
    var t2 := Task(e2, PathJoin(sc.dataDir, e2.href), item);
    var state := map[item.name := Record(t2)];
    var p0 := Plan([], state);
    var p1 := Plan([t1], map[item.name := Record(t1)]);
    assert Consider(sc, p0, item, e1) == p1;
    assert [e1, e2][..1] == [e1];
    assert PlanEntries(sc, p0, item, [e1]) == p1;
    assert Consider(sc, p1, item, e2) == Plan([t1, t2], state);
    assert [item][..0] == [];
  }

  // ---------------------------------------------------------------------------
  // Running the tasks

  function ReplyFor(replies: map<string, Reply>, href: string): Reply {
    if href in replies then replies[href] else Refused
  }

  /** The files after running the tasks one after another. */
  function RunAll(files: map<string, FileData>, dirs: set<string>, tasks: seq<Task>, replies: map<string, Reply>, verify: bool): map<string, FileData> {
    if tasks == [] then files
    else
      var t := tasks[|tasks| - 1];
      AfterFetch(RunAll(files, dirs, tasks[..|tasks| - 1], replies, verify), dirs, t.dest, ReplyFor(replies, t.entry.href), verify)
  }

  /**
   * Running downloads to `.zim` destinations leaves none of their `.tmp`
   * files behind and creates no other `.tmp` file.
   */
  lemma {:induction false} RunAllLeavesNoTemp(files: map<string, FileData>, dirs: set<string>, tasks: seq<Task>, replies: map<string, Reply>, verify: bool)
    requires forall k :: 0 <= k < |tasks| ==> EndsWith(tasks[k].dest, ".zim")
    ensures forall k :: 0 <= k < |tasks| ==> TempPath(tasks[k].dest) !in RunAll(files, dirs, tasks, replies, verify)
    ensures forall p :: p in RunAll(files, dirs, tasks, replies, verify) && EndsWith(p, ".tmp") ==> p in files
  {
    if tasks != [] {
      var init := tasks[..|tasks| - 1];
      var t := tasks[|tasks| - 1];
      RunAllLeavesNoTemp(files, dirs, init, replies, verify);
      forall k | 0 <= k < |tasks|
        ensures t.dest != TempPath(tasks[k].dest)
      {
        ZimIsNotTemp(t.dest, tasks[k].dest);
      }
      assert forall k :: 0 <= k < |init| ==> init[k] == tasks[k];
      assert !EndsWith(t.dest, ".tmp");
    }
  }

  function Elements(names: seq<string>): set<string> {
    set n | n in names
  }

  /** The paths `cleanup` removes: the entries of `dir` whose names end in `.tmp`. */
  function TempPaths(dir: string, names: set<string>): set<string> {
    set n | n in names && EndsWith(n, ".tmp") :: PathJoin(dir, n)
  }

  // ---------------------------------------------------------------------------
  // The manager

  class ContentManager {
    const config: Config
    const fs: FileSystem
    /** `content_state`. */
    var contentState: map<string, StateEntry>
    /** What `content_state.json` holds; `None` when there is no readable file. */
    var savedState: Option<map<string, StateEntry>>

    /** `ContentManager(config)`, loading the stored state when there is one. */
    constructor (config: Config, fs: FileSystem, stored: Option<map<string, StateEntry>>)
      ensures this.config == config && this.fs == fs
      ensures contentState == stored.GetOr(map[]) && savedState == stored
    {
      this.config := config;
      this.fs := fs;
      contentState := stored.GetOr(map[]);
      savedState := stored;
    }

    /** What planning reads from the configuration and the file system. */
    function CurrentScope(): Scope
      reads this, config, fs
    {
      Scope(config.dataDir, config.downloadAll, config.languageFilter, fs.files.Keys + fs.dirs)
    }

    /** `_get_available_content`. */
    method GetAvailableContent(page: Page) returns (r: Option<seq<Entry>>)
      ensures r == Listing(page)
    {
      if page.Unreachable? || page.status != 200 {
        return None;
      }
      var links := page.links;
      var content: seq<Entry> := [];
      var i := 0;
      while i < |links|
        invariant 0 <= i <= |links|
        invariant Scan(links[..i]) == Some(content)
      {
        ScanStep(links, i);
        match LinkOutcome(links[i]) {
          case Raises =>
            ScanRaisesFromPrefix(links, i + 1);
            return None;
          case Skipped =>
          case Kept(e) =>
            content := content + [e];
        }
        i := i + 1;
      }
      assert links[..i] == links;
      return Some(content);
    }

    /**
     * `_download_file(url, dest, item)`: stream the body into `dest.tmp` in
     * chunks of 8192 bytes, check the size when `verify_downloads` is set,
     * then rename onto `dest`; on any failure remove the `.tmp` and return false.
     */
    method DownloadFile(dest: string, reply: Reply) returns (ok: bool)
      requires fs.Valid()
      modifies fs
      ensures fs.Valid() && fs.dirs == old(fs.dirs)
      ensures ok == DownloadSucceeds(old(fs.dirs), dest, reply, config.options.verifyDownloads)
      ensures fs.files == AfterFetch(old(fs.files), old(fs.dirs), dest, reply, config.options.verifyDownloads)
    {
      var temp := TempPath(dest);
      assert EndsWith(temp, ".tmp") by { assert temp[|temp| - 4..] == ".tmp"; }
      assert temp != dest by { assert |temp| != |dest|; }
      ok := false;
      if reply.Reply? && reply.status == 200 {
        var totalSize := ExpectedSize(reply.length);
        if totalSize.Some? {
          var created := fs.Open(temp);
          if created {
            StreamBody(temp, reply.body);
            if !reply.interrupted && !(config.options.verifyDownloads && SizeOf(fs.files[temp]) != totalSize.value) {
              ok := fs.Rename(temp, dest);
            }
          }
        }
      }
      if !ok {
        fs.Discard(temp);
      }
    }

    /** The chunk loop: append the body to the open file `temp`, 8192 bytes at a time. */
    method StreamBody(temp: string, body: seq<Byte>)
      requires fs.Valid() && temp in fs.files && fs.files[temp] == Blob([])
      modifies fs
      ensures fs.Valid() && fs.dirs == old(fs.dirs)
      ensures fs.files == old(fs.files)[temp := Blob(body)]
    {
      var downloaded := 0;
      while downloaded < |body|
        invariant 0 <= downloaded <= |body|
        invariant fs.files == old(fs.files)[temp := Blob(body[..downloaded])]
        invariant fs.dirs == old(fs.dirs) && fs.Valid()
      {
        var n := if |body| - downloaded < ChunkSize then |body| - downloaded else ChunkSize;
        fs.Append(temp, body[downloaded..downloaded + n]);
        assert body[..downloaded] + body[downloaded..downloaded + n] == body[..downloaded + n];
        downloaded := downloaded + n;
      }
      assert body[..downloaded] == body;
    }

    /**
     * `update_content`: plan downloads for every admitted item and matching
     * listed file whose destination is missing or whose recorded date
     * differs, updating the state as each is planned; then run them and, if
     * there were any, save the state. A listing that fails changes nothing.
     */
    method UpdateContent(page: Page, replies: map<string, Reply>)
      requires fs.Valid()
      modifies this`contentState, this`savedState, fs
      ensures fs.Valid() && fs.dirs == old(fs.dirs)
      ensures Listing(page).None? ==>
        contentState == old(contentState) && savedState == old(savedState) && fs.files == old(fs.files)
      ensures Listing(page).Some? ==>
        var plan := PlanItems(old(CurrentScope()), Plan([], old(contentState)), config.contentList, Listing(page).value);
        && contentState == plan.state
        && savedState == (if plan.tasks == [] then old(savedState) else Some(plan.state))
        && fs.files == RunAll(old(fs.files), old(fs.dirs), plan.tasks, replies, config.options.verifyDownloads)
    {
      var available := GetAvailableContent(page);
      if available.None? {
        return;
      }
      var tasks := PlanDownloads(available.value);
      if tasks != [] {
        RunDownloads(tasks, replies);
        savedState := Some(contentState);
      }
    }

    /** The outer planning loop of `update_content`, over the configured items. */
    method PlanDownloads(es: seq<Entry>) returns (tasks: seq<Task>)
      modifies this`contentState
      ensures Plan(tasks, contentState) == PlanItems(CurrentScope(), Plan([], old(contentState)), config.contentList, es)
    {
      var items := config.contentList;
      ghost var p0 := Plan([], contentState);
      tasks := [];
      var i := 0;
      while i < |items|
        invariant 0 <= i <= |items|
        invariant Plan(tasks, contentState) == PlanItems(CurrentScope(), p0, items[..i], es)
      {
        var item := items[i];
        assert items[..i + 1][..i] == items[..i];
        if config.ShouldDownloadContent(item) {
          tasks := PlanMatches(item, es, tasks);
        }
        i := i + 1;
      }
      assert items[..i] == items;
    }

    /** The inner planning loop of `update_content`, over the listed files for one item. */
    method PlanMatches(item: ContentItem, es: seq<Entry>, tasks0: seq<Task>) returns (tasks: seq<Task>)
      modifies this`contentState
      ensures Plan(tasks, contentState) == PlanEntries(CurrentScope(), Plan(tasks0, old(contentState)), item, es)
    {
      ghost var before := Plan(tasks0, contentState);
      tasks := tasks0;
      var j := 0;
      while j < |es|
        invariant 0 <= j <= |es|
        invariant Plan(tasks, contentState) == PlanEntries(CurrentScope(), before, item, es[..j])
      {
        var e := es[j];
        assert es[..j + 1][..j] == es[..j];
        if StartsWith(e.href, item.category + "/" + item.name) {
          var dest := PathJoin(config.dataDir, e.href);
          if !fs.Exists(dest) || item.name !in contentState || contentState[item.name].lastUpdated != e.date {
            tasks := tasks + [Task(e, dest, item)];
            contentState := contentState[item.name := StateEntry(e.date, e.size, dest)];
          }
        }
        j := j + 1;
      }
      assert es[..j] == es;
    }

    /** Awaiting the scheduled downloads, one after another. */
    method RunDownloads(tasks: seq<Task>, replies: map<string, Reply>)
      requires fs.Valid()
      modifies fs
      ensures fs.Valid() && fs.dirs == old(fs.dirs)
      ensures fs.files == RunAll(old(fs.files), old(fs.dirs), tasks, replies, config.options.verifyDownloads)
    {
      var k := 0;
      while k < |tasks|
        invariant 0 <= k <= |tasks|
        invariant fs.Valid() && fs.dirs == old(fs.dirs)
        invariant fs.files == RunAll(old(fs.files), old(fs.dirs), tasks[..k], replies, config.options.verifyDownloads)
      {
        var t := tasks[k];
        assert tasks[..k + 1][..k] == tasks[..k];
        var _ := DownloadFile(t.dest, ReplyFor(replies, t.entry.href));
        k := k + 1;
      }
      assert tasks[..k] == tasks;
    }

    /**
     * `cleanup`: when `cleanup_incomplete` is set, remove every entry of the
     * data directory whose name ends in `.tmp`; an unreadable directory is
     * logged and ignored.
     */
    method Cleanup()
      requires fs.Valid()
      modifies fs
      ensures fs.Valid() && fs.dirs == old(fs.dirs)
      ensures !config.options.cleanupIncomplete || config.dataDir !in old(fs.dirs) ==> fs.files == old(fs.files)
      ensures config.options.cleanupIncomplete && config.dataDir in old(fs.dirs) ==>
        fs.files == old(fs.files) - TempPaths(config.dataDir, old(fs.Entries(config.dataDir)))
    {
      if !config.options.cleanupIncomplete {
        return;
      }
      var listing := fs.ListDir(config.dataDir);
      if listing.None? {
        return;
      }
      var names := listing.value;
      var dir := config.dataDir;
      ghost var start := fs.files;
      var i := 0;
      while i < |names|
        invariant 0 <= i <= |names|
        invariant fs.Valid() && fs.dirs == old(fs.dirs)
        invariant fs.files == start - TempPaths(dir, Elements(names[..i]))
      {
        var name := names[i];
        assert names[..i + 1] == names[..i] + [name];
        if EndsWith(name, ".tmp") {
          var _ := fs.Remove(PathJoin(dir, name));
        }
        i := i + 1;
      }
      assert names[..i] == names;
      assert Elements(names) == old(fs.Entries(config.dataDir));
    }
  }
}
