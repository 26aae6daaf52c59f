/**
 * The maintainer's configuration: the environment variables it reads, the
 * download list (`download-list.yaml`, given here already parsed) and the
 * rule that decides which configured items are downloaded at all.
 */
module Configuration {
  import opened Wrappers
  import opened Strings
  import opened Files

  /** One entry of the download list. */
  datatype ContentItem = ContentItem(name: string, language: string, category: string, description: Option<string>)

  /** Options of the download list; `retryAttempts` is carried but never read by the maintainer. */
  datatype ContentOptions = ContentOptions(
    maxConcurrentDownloads: int,
    retryAttempts: int,
    verifyDownloads: bool,
    cleanupIncomplete: bool)

  const DefaultOptions := ContentOptions(2, 3, true, true)

  /** The five cron fields of `UPDATE_SCHEDULE`. */
  datatype Schedule = Schedule(minute: string, hour: string, day: string, month: string, dayOfWeek: string)

  const DefaultScheduleText := "0 2 1 * *"

  /** The exceptions that make building a configuration fail. */
  datatype ConfigError =
    | ScheduleFieldCount(count: nat)   // unpacking `split()` into five names raised ValueError
    | EmptyDownloadList                // the YAML document was empty, so `"content" in None` raised TypeError
    | BadContentEntry(index: nat)      // `ContentItem(**item)` raised TypeError for the entry at `index`
    | UnknownOptions(keys: set<string>) // `ContentOptions(**options)` raised TypeError for these keywords
    | NullContent                      // `content:` held `None`, so iterating it raised TypeError
    | NullOptions                      // `options:` held `None`, so `ContentOptions(**None)` raised TypeError

  /** A value in the `options` section; the maintainer only tests it for truth or uses it as a count. */
  datatype OptionValue = IntValue(i: int) | BoolValue(b: bool)

  /**
   * `download-list.yaml` as the loader sees it. A section written with
   * nothing after its key (`content:`) is present and holds `None`.
   */
  datatype DownloadListFile =
    | NoFile
    | EmptyDocument
    | Document(content: Key<seq<map<string, string>>>, options: Key<map<string, OptionValue>>)

  /** `os.getenv(key, default)`. */
  function GetEnv(env: map<string, string>, key: string, default: string): string {
    if key in env then env[key] else default
  }

  /** `LANGUAGE_FILTER.split(",")`: never empty, no part holds a comma, and joining it back gives the variable's text. */
  function LanguageFilter(raw: string): (filter: seq<string>)
    ensures |filter| >= 1
    ensures Join(filter, ',') == raw
    ensures forall k :: 0 <= k < |filter| ==> ',' !in filter[k]
  {
    JoinSplit(raw, ',');
    Split(raw, ',')
  }

  /** `raw.lower() == "true"`, the test applied to `DOWNLOAD_ALL` (and to `TESTING`). */
  predicate IsTrueFlag(raw: string) {
    Lower(raw) == "true"
  }

  /** The flag is `true` spelt in any mix of upper and lower case, and nothing else. */
  lemma TrueFlagSpellings(raw: string)
    ensures IsTrueFlag(raw) <==>
      && |raw| == 4
      && (raw[0] == 't' || raw[0] == 'T')
      && (raw[1] == 'r' || raw[1] == 'R')
      && (raw[2] == 'u' || raw[2] == 'U')
      && (raw[3] == 'e' || raw[3] == 'E')
  {
    var low := Lower(raw);
    if |raw| == 4 {
      assert low == [LowerChar(raw[0]), LowerChar(raw[1]), LowerChar(raw[2]), LowerChar(raw[3])];
    }
  }

  function ScheduleFields(s: Schedule): seq<string> {
    [s.minute, s.hour, s.day, s.month, s.dayOfWeek]
  }

  /**
   * `minute, hour, day, month, day_of_week = text.split()`: exactly five
   * whitespace-separated fields, taken in order; any other count fails.
   */
  function ParseSchedule(text: string): (r: Result<Schedule, ConfigError>)
    ensures r.Success? <==> |Words(text)| == 5
    ensures r.Success? ==> ScheduleFields(r.value) == Words(text)
    ensures r.Failure? ==> r.error == ScheduleFieldCount(|Words(text)|)
  {
    var ws := Words(text);
    if |ws| == 5 then Success(Schedule(ws[0], ws[1], ws[2], ws[3], ws[4]))
    else Failure(ScheduleFieldCount(|ws|))
  }

  /** A schedule written with single spaces between non-blank fields parses back to itself. */
  lemma ScheduleRoundTrip(s: Schedule)
    requires forall k :: 0 <= k < 5 ==> IsWord(ScheduleFields(s)[k])
    ensures ParseSchedule(Join(ScheduleFields(s), ' ')) == Success(s)
  {
    WordsOfJoin(ScheduleFields(s));
  }

  /** The default schedule runs at 02:00 on the first day of every month. */
  lemma DefaultScheduleParses()
    ensures ParseSchedule(DefaultScheduleText) == Success(Schedule("0", "2", "1", "*", "*"))
  {
    var s := Schedule("0", "2", "1", "*", "*");
    var fields := ScheduleFields(s);
    assert Join(fields[4..], ' ') == "*";
    assert Join(fields[3..], ' ') == "* *";
    assert Join(fields[2..], ' ') == "1 * *";
    assert Join(fields[1..], ' ') == "2 1 * *";
    assert Join(fields, ' ') == DefaultScheduleText;
    ScheduleRoundTrip(s);
  }

  const ItemKeys: set<string> := {"name", "language", "category", "description"}

  /** `ContentItem(**entry)`: name, language and category are required, description optional, no other key. */
  function ItemFromEntry(e: map<string, string>): Option<ContentItem> {
    if "name" in e && "language" in e && "category" in e && e.Keys <= ItemKeys then
      Some(ContentItem(e["name"], e["language"], e["category"],
                       if "description" in e then Some(e["description"]) else None))
    else None
  }

  /** The list comprehension over `config["content"]`: every entry converted in order, or the first bad one. */
  function ItemsFromEntries(es: seq<map<string, string>>): (r: Result<seq<ContentItem>, ConfigError>)
    ensures r.Success? ==> |r.value| == |es| && forall i :: 0 <= i < |es| ==> ItemFromEntry(es[i]) == Some(r.value[i])
    ensures r.Failure? ==> exists i ::
      && 0 <= i < |es| && r.error == BadContentEntry(i) && ItemFromEntry(es[i]).None?
      && forall j :: 0 <= j < i ==> ItemFromEntry(es[j]).Some?
    ensures r.Failure? <==> exists i :: 0 <= i < |es| && ItemFromEntry(es[i]).None?
  {
    if es == [] then Success([])
    else
      match ItemFromEntry(es[0])
      case None => Failure(BadContentEntry(0))
      case Some(item) =>
        match ItemsFromEntries(es[1..])
        case Success(rest) => Success([item] + rest)
        case Failure(BadContentEntry(i)) =>
          assert ItemFromEntry(es[i + 1]).None?;
          assert forall j :: 1 <= j < i + 1 ==> es[j] == es[1..][j - 1];
          Failure(BadContentEntry(i + 1))
        case Failure(e) => Failure(e)
  }

  const OptionKeys: set<string> := {"max_concurrent_downloads", "retry_attempts", "verify_downloads", "cleanup_incomplete"}

  /** The value as a count (Python treats `True` as 1). */
  function AsInt(v: OptionValue): int {
    match v
    case IntValue(i) => i
    case BoolValue(b) => if b then 1 else 0
  }

  /** The value as a truth value (Python treats a non-zero number as true). */
  function AsBool(v: OptionValue): bool {
    match v
    case IntValue(i) => i != 0
    case BoolValue(b) => b
  }

  /** `ContentOptions(**section)`: every given key overrides its default, and an unknown key fails. */
  function OptionsFromSection(sec: map<string, OptionValue>): (r: Result<ContentOptions, ConfigError>)
    ensures r.Success? <==> sec.Keys <= OptionKeys
    ensures r.Failure? ==> r.error == UnknownOptions(sec.Keys - OptionKeys) && r.error.keys != {}
    ensures r.Success? ==>
      && r.value.maxConcurrentDownloads == (if "max_concurrent_downloads" in sec then AsInt(sec["max_concurrent_downloads"]) else 2)
      && r.value.retryAttempts == (if "retry_attempts" in sec then AsInt(sec["retry_attempts"]) else 3)
      && r.value.verifyDownloads == (if "verify_downloads" in sec then AsBool(sec["verify_downloads"]) else true)
      && r.value.cleanupIncomplete == (if "cleanup_incomplete" in sec then AsBool(sec["cleanup_incomplete"]) else true)
  {
    if !(sec.Keys <= OptionKeys) then
      Failure(UnknownOptions(sec.Keys - OptionKeys))
    else
      Success(ContentOptions(
        if "max_concurrent_downloads" in sec then AsInt(sec["max_concurrent_downloads"]) else DefaultOptions.maxConcurrentDownloads,
        if "retry_attempts" in sec then AsInt(sec["retry_attempts"]) else DefaultOptions.retryAttempts,
        if "verify_downloads" in sec then AsBool(sec["verify_downloads"]) else DefaultOptions.verifyDownloads,
        if "cleanup_incomplete" in sec then AsBool(sec["cleanup_incomplete"]) else DefaultOptions.cleanupIncomplete))
  }

  /** `should_download_content`. */
  predicate Admits(downloadAll: bool, languageFilter: seq<string>, item: ContentItem) {
    downloadAll || languageFilter == [] || item.language in languageFilter
  }

  /**
   * With `LANGUAGE_FILTER` unset the filter is `[""]`, not empty: unless
   * `DOWNLOAD_ALL` is true, only items whose language is blank are admitted.
   */
  lemma UnsetFilterAdmitsOnlyBlankLanguage(env: map<string, string>, item: ContentItem)
    requires "LANGUAGE_FILTER" !in env
    ensures var all := IsTrueFlag(GetEnv(env, "DOWNLOAD_ALL", "false"));
      Admits(all, LanguageFilter(GetEnv(env, "LANGUAGE_FILTER", "")), item) <==> all || item.language == ""
  {
    assert LanguageFilter("") == [""];
  }

  /** A comma-separated list of languages admits exactly those languages when `DOWNLOAD_ALL` is off. */
  lemma ListedLanguagesAdmitted(langs: seq<string>, item: ContentItem)
    requires |langs| >= 1
    requires forall k :: 0 <= k < |langs| ==> ',' !in langs[k]
    ensures Admits(false, LanguageFilter(Join(langs, ',')), item) <==> item.language in langs
  {
    SplitJoin(langs, ',');
  }

  /** What loading the download list leaves: the error it stopped on, the content list and the options. */
  datatype Loaded = Loaded(err: Option<ConfigError>, contentList: seq<ContentItem>, options: ContentOptions)

  /**
   * `_load_download_list` from `list` and `opts`: no file changes nothing; a
   * `content` key replaces the list, then an `options` key replaces the
   * options; a key holding `None` raises; the first exception stops the
   * load, keeping what was assigned.
   */
  function LoadOutcome(file: DownloadListFile, list: seq<ContentItem>, opts: ContentOptions): Loaded {
    match file
    case NoFile => Loaded(None, list, opts)
    case EmptyDocument => Loaded(Some(EmptyDownloadList), list, opts)
    case Document(content, section) =>
      var items :=
        match content
        case Absent => Success(list)
        case Null => Failure(NullContent)
        case Given(es) => ItemsFromEntries(es);
      if items.Failure? then Loaded(Some(items.error), list, opts)
      else
        var o :=
          match section
          case Absent => Success(opts)
          case Null => Failure(NullOptions)
          case Given(s) => OptionsFromSection(s);
        if o.Failure? then Loaded(Some(o.error), items.value, opts)
        else Loaded(None, items.value, o.value)
  }

  /**
   * Loading succeeds exactly when there is no file, or a document with no
   * section holding `None`, whose entries all convert and whose options are
   * all known; a successful load
   * holds the entries in order and overrides exactly the options given.
   */
  lemma LoadOutcomeSucceeds(file: DownloadListFile, list: seq<ContentItem>, opts: ContentOptions)
    ensures var r := LoadOutcome(file, list, opts);
      && (r.err.None? <==>
            || file.NoFile?
            || (&& file.Document?
                && !file.content.Null? && !file.options.Null?
                && (file.content.Given? ==> forall i :: 0 <= i < |file.content.value| ==> ItemFromEntry(file.content.value[i]).Some?)
                && (file.options.Given? ==> file.options.value.Keys <= OptionKeys)))
      && (file.NoFile? ==> r.contentList == list && r.options == opts)
      && (r.err.None? && file.Document? && file.content.Given? ==>
            && |r.contentList| == |file.content.value|
            && forall i :: 0 <= i < |r.contentList| ==> ItemFromEntry(file.content.value[i]) == Some(r.contentList[i]))
      && (r.err.None? && file.Document? && file.content.Absent? ==> r.contentList == list)
      && (r.err.None? && file.Document? && file.options.Given? ==> r.options == OptionsFromSection(file.options.value).value)
      && (r.err.None? && file.Document? && file.options.Absent? ==> r.options == opts)
  {
  }

  /**
   * A failed load reports the first failing step and leaves the options;
   * the list only changes when its own step succeeded. A section holding
   * `None` raises when its turn comes.
   */
  lemma LoadOutcomeFails(file: DownloadListFile, list: seq<ContentItem>, opts: ContentOptions)
    ensures var r := LoadOutcome(file, list, opts);
      && (file.EmptyDocument? ==> r.err == Some(EmptyDownloadList))
      && (r.err.Some? ==> r.options == opts)
      && (file.Document? && file.content.Null? ==> r.err == Some(NullContent) && r.contentList == list)
      && (r.err.Some? && file.Document? && file.content.Given? && ItemsFromEntries(file.content.value).Failure? ==>
            r.err == Some(ItemsFromEntries(file.content.value).error) && r.contentList == list)
      && (file.Document? && file.options.Null?
            && (file.content.Absent? || (file.content.Given? && ItemsFromEntries(file.content.value).Success?)) ==>
            r.err == Some(NullOptions))
      && (r.err.Some? && file.Document? && file.options.Given? && OptionsFromSection(file.options.value).Failure?
            && (file.content.Absent? || (file.content.Given? && ItemsFromEntries(file.content.value).Success?)) ==>
            r.err == Some(OptionsFromSection(file.options.value).error))
  {
  }

  class Config {
    var dataDir: string
    var configDir: string
    var libraryFile: string
    var baseUrl: string
    var languageFilter: seq<string>
    var downloadAll: bool
    var updateSchedule: Schedule
    var contentList: seq<ContentItem>
    var options: ContentOptions

    /** The assignments of `Config.__init__` before the download list is read. */
    constructor FromEnvironment(env: map<string, string>, schedule: Schedule)
      ensures dataDir == "/data" && configDir == "/config"
      ensures libraryFile == PathJoin("/data", "library.xml")
      ensures baseUrl == GetEnv(env, "KIWIX_SERVER_URL", "http://kiwix-serve")
      ensures languageFilter == LanguageFilter(GetEnv(env, "LANGUAGE_FILTER", ""))
      ensures downloadAll == IsTrueFlag(GetEnv(env, "DOWNLOAD_ALL", "false"))
      ensures updateSchedule == schedule
      ensures contentList == [] && options == DefaultOptions
    {
      dataDir := "/data";
      configDir := "/config";
      libraryFile := PathJoin("/data", "library.xml");
      baseUrl := GetEnv(env, "KIWIX_SERVER_URL", "http://kiwix-serve");
      languageFilter := LanguageFilter(GetEnv(env, "LANGUAGE_FILTER", ""));
      downloadAll := IsTrueFlag(GetEnv(env, "DOWNLOAD_ALL", "false"));
      updateSchedule := schedule;
      contentList := [];
      options := DefaultOptions;
    }

    /** `_load_download_list`, assigning `content_list` and `options` as it goes. */
    method LoadDownloadList(file: DownloadListFile) returns (err: Option<ConfigError>)
      modifies this`contentList, this`options
      ensures Loaded(err, contentList, options) == LoadOutcome(file, old(contentList), old(options))
    {
      match file
      case NoFile =>
        return None;
      case EmptyDocument =>
        return Some(EmptyDownloadList);
      case Document(content, section) =>
        match content {
          case Absent =>
          case Null =>
            return Some(NullContent);
          case Given(es) =>
            var items := ItemsFromEntries(es);
            if items.Failure? {
              return Some(items.error);
            }
            contentList := items.value;
        }
        match section {
          case Absent =>
          case Null =>
            return Some(NullOptions);
          case Given(s) =>
            var opts := OptionsFromSection(s);
            if opts.Failure? {
              return Some(opts.error);
            }
            options := opts.value;
        }
        return None;
    }

    /**
     * `should_download_content(item)` under this configuration: everything
     * when `download_all` is set, otherwise the items whose language the
     * filter lists (an empty filter lists everything).
     */
    function ShouldDownloadContent(item: ContentItem): (b: bool)
      reads this
      ensures downloadAll ==> b
      ensures !downloadAll && languageFilter == [] ==> b
      ensures !downloadAll && languageFilter != [] ==> (b <==> item.language in languageFilter)
    {
      Admits(downloadAll, languageFilter, item)
    }

    /**
     * `Config()`: read the environment, parse the schedule, then load the
     * download list into the empty list and the default options. A bad
     * schedule raises first; otherwise the load's error, if any, is what
     * `Config()` raises.
     */
    static method Load(env: map<string, string>, file: DownloadListFile) returns (r: Result<Config, ConfigError>)
      ensures var sched := ParseSchedule(GetEnv(env, "UPDATE_SCHEDULE", DefaultScheduleText));
        sched.Failure? ==> r == Failure(sched.error)
      ensures var sched := ParseSchedule(GetEnv(env, "UPDATE_SCHEDULE", DefaultScheduleText));
        var loaded := LoadOutcome(file, [], DefaultOptions);
        && (sched.Success? ==> (r.Success? <==> loaded.err.None?))
        && (sched.Success? && r.Failure? ==> loaded.err == Some(r.error))
      ensures r.Success? ==>
        && fresh(r.value)
        && ParseSchedule(GetEnv(env, "UPDATE_SCHEDULE", DefaultScheduleText)) == Success(r.value.updateSchedule)
        && r.value.dataDir == "/data" && r.value.configDir == "/config"
        && r.value.libraryFile == PathJoin("/data", "library.xml")
        && r.value.baseUrl == GetEnv(env, "KIWIX_SERVER_URL", "http://kiwix-serve")
        && r.value.languageFilter == LanguageFilter(GetEnv(env, "LANGUAGE_FILTER", ""))
        && r.value.downloadAll == IsTrueFlag(GetEnv(env, "DOWNLOAD_ALL", "false"))
        && r.value.contentList == LoadOutcome(file, [], DefaultOptions).contentList
        && r.value.options == LoadOutcome(file, [], DefaultOptions).options
      ensures r.Success? && file.NoFile? ==> r.value.contentList == [] && r.value.options == DefaultOptions
    {
      if "UPDATE_SCHEDULE" !in env {
        DefaultScheduleParses();
      }
      var sched := ParseSchedule(GetEnv(env, "UPDATE_SCHEDULE", DefaultScheduleText));
      if sched.Failure? {
        return Failure(sched.error);
      }
      r := Build(env, sched.value, file);
    }

    /** The rest of `Config()` once the schedule has parsed: the environment fields, then the download list. */
    static method Build(env: map<string, string>, schedule: Schedule, file: DownloadListFile) returns (r: Result<Config, ConfigError>)
      ensures var loaded := LoadOutcome(file, [], DefaultOptions);
        && (r.Success? <==> loaded.err.None?)
        && (r.Failure? ==> loaded.err == Some(r.error))
        && (r.Success? ==> r.value.contentList == loaded.contentList && r.value.options == loaded.options)
      ensures r.Success? ==>
        && fresh(r.value)
        && r.value.updateSchedule == schedule
        && r.value.dataDir == "/data" && r.value.configDir == "/config"
        && r.value.libraryFile == PathJoin("/data", "library.xml")
        && r.value.baseUrl == GetEnv(env, "KIWIX_SERVER_URL", "http://kiwix-serve")
        && r.value.languageFilter == LanguageFilter(GetEnv(env, "LANGUAGE_FILTER", ""))
        && r.value.downloadAll == IsTrueFlag(GetEnv(env, "DOWNLOAD_ALL", "false"))
    {
      var c := new Config.FromEnvironment(env, schedule);
      var err := c.LoadDownloadList(file);
      if err.Some? {
        return Failure(err.value);
      }
      return Success(c);
    }
  }
}
