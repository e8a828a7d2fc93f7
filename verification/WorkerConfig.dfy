/** The configuration all workers share, collected worker by worker from templates. The
    inner dictionary of a template is an object: a worker of one type gets the template's
    own, and putting its name into that edits the template for everyone after it. */
module WorkerConfig {
  import opened Matrix
  import opened WorkerNames
  import opened WorkerPlanner

  /** A value of the shared configuration; the placeholder stands for a worker's name. */
  datatype Setting = Placeholder | Name(name: string) | Flag(b: bool)

  type Settings = map<string, Setting>

  // ---- The templates as written ----

  /** The shared settings of all templates; each key belongs to the template of one type. */
  datatype Book = Book(owner: map<string, string>, initial: Settings)

  ghost predicate Proper(book: Book) { book.owner.Keys == book.initial.Keys }

  const WORKERS_CONFIG: Book := Book(
    map[
      "update_user_directory_from_worker" := "user_dir",
      "enable_media_repo" := "media_repository",
      "media_instance_running_background_jobs" := "media_repository",
      "notify_appservices_from_worker" := "appservice",
      "run_background_tasks_on" := "background_worker"
    ],
    map[
      "update_user_directory_from_worker" := Placeholder,
      "enable_media_repo" := Flag(false),
      "media_instance_running_background_jobs" := Placeholder,
      "notify_appservices_from_worker" := Placeholder,
      "run_background_tasks_on" := Placeholder
    ])

  /** The shared settings that the templates of some types contribute. */
  function Template(book: Book, types: set<string>): Settings
    requires Proper(book)
  {
    map key | key in book.owner && book.owner[key] in types :: book.initial[key]
  }

  function Named(settings: Settings, name: string): Settings {
    map key | key in settings :: NamedSetting(settings[key], name)
  }

  function NamedSetting(s: Setting, name: string): Setting {
    if s == Placeholder then Name(name) else s
  }

  // ---- What templates copied in depth would give ----

  /** The first setting of a key stays. */
  function Claim(book: Book, shared: Settings, types: set<string>, name: string): Settings
    requires Proper(book)
  {
    Named(Template(book, types), name) + shared
  }

  function Claims(book: Book, shared: Settings, workers: seq<Worker>): Settings
    requires Proper(book)
  {
    if workers == [] then shared
    else
      var last := workers[|workers| - 1];
      Claim(book, Claims(book, shared, workers[..|workers| - 1]), last.types, last.name)
  }

  ghost predicate FirstWith(workers: seq<Worker>, t: string, i: nat) {
    i < |workers| && t in workers[i].types && forall j | 0 <= j < i :: t !in workers[j].types
  }

  /** A setting that was there from the start stays as it was. */
  lemma {:induction false} ClaimsKeep(book: Book, shared: Settings, workers: seq<Worker>, key: string)
    requires Proper(book) && key in shared
    ensures key in Claims(book, shared, workers) && Claims(book, shared, workers)[key] == shared[key]
  {
    if workers != [] {
      ClaimsKeep(book, shared, workers[..|workers| - 1], key);
    }
  }

  /** A template key is set exactly when some worker has its type, and then the first worker
      in order that has it decides the setting. */
  lemma {:induction false} FirstClaimWins(book: Book, shared: Settings, workers: seq<Worker>, key: string)
    requires Proper(book) && key in book.owner && key !in shared
    ensures key in Claims(book, shared, workers) <==> exists i: nat :: FirstWith(workers, book.owner[key], i)
    ensures forall i: nat | FirstWith(workers, book.owner[key], i) ::
              key in Claims(book, shared, workers)
              && Claims(book, shared, workers)[key] == NamedSetting(book.initial[key], workers[i].name)
  {
    if workers != [] {
      var n := |workers| - 1;
      var t := book.owner[key];
      FirstClaimWins(book, shared, workers[..n], key);
      FirstWithStep(workers, t);
      if t in workers[n].types && !exists j: nat :: FirstWith(workers[..n], t, j) {
        assert FirstWith(workers, t, n);
      }
    } else {
      assert forall i: nat :: !FirstWith(workers, book.owner[key], i);
    }
  }

  lemma FirstWithStep(workers: seq<Worker>, t: string)
    requires workers != []
    ensures var n := |workers| - 1;
            forall i: nat :: FirstWith(workers, t, i) <==>
                        FirstWith(workers[..n], t, i)
                        || (i == n && t in workers[n].types && !exists j: nat :: FirstWith(workers[..n], t, j))
  {
    var n := |workers| - 1;
    var init := workers[..n];
    if t in workers[n].types && !exists j: nat :: FirstWith(init, t, j) {
      NoFirst(init, t);
    }
  }

  lemma {:induction false} NoFirst(workers: seq<Worker>, t: string)
    requires !exists j: nat :: FirstWith(workers, t, j)
    ensures forall j | 0 <= j < |workers| :: t !in workers[j].types
  {
    if workers != [] {
      var n := |workers| - 1;
      var init := workers[..n];
      forall j: nat ensures !FirstWith(init, t, j) {
        assert FirstWith(init, t, j) ==> FirstWith(workers, t, j);
      }
      NoFirst(init, t);
      assert !FirstWith(workers, t, n);
    }
  }

  lemma {:induction false} ClaimsOnlyTemplateKeys(book: Book, shared: Settings, workers: seq<Worker>, key: string)
    requires Proper(book) && key !in shared && key !in book.owner
    ensures key !in Claims(book, shared, workers)
  {
    if workers != [] {
      ClaimsOnlyTemplateKeys(book, shared, workers[..|workers| - 1], key);
    }
  }

  // ---- Templates that were edited ----

  /** The templates hold the keys they were written with. */
  ghost predicate Fits(book: Book, current: map<string, Settings>) {
    && Proper(book)
    && forall t, key | t in current :: key in current[t] <==> key in book.owner && book.owner[key] == t
  }

  /** A template is as written, unless all its keys are claimed already. */
  ghost predicate Harmless(book: Book, current: map<string, Settings>, shared: Settings)
    requires Proper(book)
  {
    forall t | t in current :: current[t] == Template(book, {t}) || current[t].Keys <= shared.Keys
  }

  /** What templates as they are now give for some types. */
  ghost function Merged(book: Book, current: map<string, Settings>, types: set<string>): Settings
    requires Fits(book, current) && types <= current.Keys
  {
    map key | key in book.owner && book.owner[key] in types :: current[book.owner[key]][key]
  }

  lemma MergedOne(book: Book, current: map<string, Settings>, t: string)
    requires Fits(book, current) && t in current
    ensures Merged(book, current, {t}) == current[t]
  {
  }

  lemma MergedMore(book: Book, current: map<string, Settings>, types: set<string>, t: string)
    requires Fits(book, current) && types <= current.Keys && t in current && t !in types
    ensures Merged(book, current, types) + current[t] == Merged(book, current, types + {t})
  {
  }

  /** Edited templates make no difference to a claim: what differs is taken already. */
  lemma EditsDoNotShow(book: Book, current: map<string, Settings>, shared: Settings, types: set<string>, name: string)
    requires Fits(book, current) && Harmless(book, current, shared) && types <= current.Keys
    ensures Named(Merged(book, current, types), name) + shared == Claim(book, shared, types, name)
  {
    var claimed := Named(Merged(book, current, types), name) + shared;
    var claim := Claim(book, shared, types, name);
    assert claimed.Keys == claim.Keys;
    forall key | key in claimed ensures claimed[key] == claim[key] {
      if key !in shared {
        var t := book.owner[key];
        assert key in current[t] && current[t] == Template(book, {t});
      }
    }
  }

  /** At most the template of a worker with one type changes, and it gets that worker's name. */
  ghost predicate EditedOnly(before: map<string, Settings>, after: map<string, Settings>, types: set<string>,
      name: string) {
    after == before || exists t :: t in before && types == {t} && after == before[t := Named(before[t], name)]
  }

  lemma EditsAreHarmless(book: Book, before: map<string, Settings>, after: map<string, Settings>, shared: Settings,
                         types: set<string>, name: string)
    requires Fits(book, before) && Harmless(book, before, shared) && types <= before.Keys
    requires EditedOnly(before, after, types, name)
    ensures Fits(book, after) && Harmless(book, after, Claim(book, shared, types, name))
  {
  }

  // ---- The objects ----

  /** A dictionary that can be edited in place. */
  class Dict {
    var settings: Settings

    constructor (settings: Settings)
      ensures this.settings == settings
    {
      this.settings := settings;
    }
  }

  /** A worker's configuration, or a template: an outer dictionary, copied as a value, with
      an inner one that a copy shares. */
  datatype Config = Config(sharedExtraConf: Dict, workerExtraConf: string)

  /** The first template is taken over with its inner dictionary; a second one is merged
      with what there is into a new dictionary. */
  method MergeTemplate(existing: Option<Config>, template: Config) returns (c: Config)
    ensures existing.None? ==> c == template
    ensures existing.Some? ==>
              && fresh(c.sharedExtraConf)
              && c.sharedExtraConf.settings == existing.value.sharedExtraConf.settings +
                  template.sharedExtraConf.settings
              && c.workerExtraConf == existing.value.workerExtraConf + template.workerExtraConf
  {
    match existing
    case None => return template;
    case Some(e) =>
      var merged := new Dict(e.sharedExtraConf.settings + template.sharedExtraConf.settings);
      return Config(merged, e.workerExtraConf + template.workerExtraConf);
  }

  /** Puts the worker's name where the placeholder stands, in the dictionary itself. */
  method InsertName(c: Config, name: string)
    modifies c.sharedExtraConf
    ensures c.sharedExtraConf.settings == Named(old(c.sharedExtraConf.settings), name)
  {
    var d := c.sharedExtraConf;
    ghost var before := d.settings;
    var left := d.settings.Keys;
    while left != {}
      invariant left <= before.Keys && d.settings.Keys == before.Keys
      invariant forall key | key in before :: d.settings[key] ==
                  if key !in left && before[key] == Placeholder then Name(name) else before[key]
      decreases left
    {
      var key :| key in left;
      if d.settings[key] == Placeholder {
        d.settings := d.settings[key := Name(name)];
      }
      left := left - {key};
    }
  }

  /** No two templates share their inner dictionary. */
  ghost predicate Separate(templates: map<string, Config>) {
    forall s, t | s in templates && t in templates ::
      templates[s].sharedExtraConf == templates[t].sharedExtraConf ==> s == t
  }

  /** The templates of some types, each with a dictionary of its own. */
  method MakeTemplates(book: Book, types: set<string>) returns (templates: map<string, Config>)
    requires Proper(book)
    ensures templates.Keys == types && Separate(templates)
    ensures forall t | t in templates ::
              fresh(templates[t].sharedExtraConf) && templates[t].sharedExtraConf.settings == Template(book, {t})
  {
    templates := map[];
    var left := types;
    while left != {}
      invariant types == templates.Keys + left && templates.Keys !! left && Separate(templates)
      invariant forall t | t in templates ::
                  fresh(templates[t].sharedExtraConf) && templates[t].sharedExtraConf.settings == Template(book, {t})
      decreases left
    {
      var t :| t in left;
      var d := new Dict(Template(book, {t}));
      templates := templates[t := Config(d, if t == "media_repository" then "enable_media_repo: true" else "")];
      left := left - {t};
    }
    assert templates.Keys + left == templates.Keys;
  }

  class Generator {
    ghost const book: Book
    const templates: map<string, Config>
    var shared: Settings

    /** The inner dictionaries of the templates. */
    ghost const dicts: set<Dict>

    constructor (ghost book: Book, templates: map<string, Config>, shared: Settings)
      requires Proper(book) && Separate(templates)
      requires forall t | t in templates :: templates[t].sharedExtraConf.settings == Template(book, {t})
      ensures Valid() && this.book == book && this.templates == templates && this.shared == shared
      ensures dicts == set t | t in templates :: templates[t].sharedExtraConf
    {
      this.book := book;
      this.templates := templates;
      this.shared := shared;
      this.dicts := set t | t in templates :: templates[t].sharedExtraConf;
    }

    ghost function Current(): map<string, Settings>
      reads dicts
      requires forall t | t in templates :: templates[t].sharedExtraConf in dicts
    {
      map t | t in templates :: templates[t].sharedExtraConf.settings
    }

    ghost predicate Valid()
      reads `shared, dicts
    {
      && (forall t | t in templates :: templates[t].sharedExtraConf in dicts)
      && Separate(templates)
      && Fits(book, Current())
      && Harmless(book, Current(), shared)
    }

    /** Merges the templates of a worker's types, in any order. */
    method MergeTemplates(types: set<string>) returns (c: Config)
      requires Valid() && types <= templates.Keys && types != {}
      ensures c.sharedExtraConf.settings == Merged(book, Current(), types)
      ensures fresh(c.sharedExtraConf) || exists t :: types == {t} && c == templates[t]
    {
      var first :| first in types;
      c := MergeTemplate(None, templates[first]);
      MergedOne(book, Current(), first);
      ghost var done := {first};
      var left := types - {first};
      while left != {}
        invariant types == done + left && done !! left
        invariant c.sharedExtraConf.settings == Merged(book, Current(), done)
        invariant fresh(c.sharedExtraConf) || (done == {first} && c == templates[first])
        decreases left
      {
        var t :| t in left;
        MergedMore(book, Current(), done, t);
        c := MergeTemplate(Some(c), templates[t]);
        left := left - {t};
        done := done + {t};
      }
      assert done + left == done;
    }

    /** Where the worker's dictionary is a template's own, that template keeps the name. */
    method NameWorker(c: Config, types: set<string>, name: string)
      requires Separate(templates) && forall t | t in templates :: templates[t].sharedExtraConf in dicts
      requires c.sharedExtraConf !in dicts || exists t :: t in templates && types == {t} && c == templates[t]
      modifies c.sharedExtraConf
      ensures c.sharedExtraConf.settings == Named(old(c.sharedExtraConf.settings), name)
      ensures forall t | t in templates :: templates[t].sharedExtraConf in dicts
      ensures EditedOnly(old(Current()), Current(), types, name)
    {
      ghost var before := Current();
      InsertName(c, name);
      if c.sharedExtraConf in dicts {
        ghost var t :| t in templates && types == {t} && c == templates[t];
        assert Current() == before[t := Named(before[t], name)];
      } else {
        assert Current() == before;
      }
    }

    /** What a worker claims: with the settings claimed before it, what untouched templates
        would have given. */
    method MakeClaim(worker: Worker) returns (claimed: Settings)
      requires Valid() && worker.types <= templates.Keys && worker.types != {}
      modifies dicts
      ensures claimed + shared == Claim(book, shared, worker.types, worker.name)
      ensures forall t | t in templates :: templates[t].sharedExtraConf in dicts
      ensures Fits(book, Current()) && Harmless(book, Current(), Claim(book, shared, worker.types, worker.name))
    {
      ghost var before := Current();
      var c := MergeTemplates(worker.types);
      NameWorker(c, worker.types, worker.name);
      EditsDoNotShow(book, before, shared, worker.types, worker.name);
      EditsAreHarmless(book, before, Current(), shared, worker.types, worker.name);
      claimed := c.sharedExtraConf.settings;
    }

    /** One worker: its claim is the one that untouched templates would have given. */
    method ConfigureWorker(worker: Worker)
      requires Valid() && worker.types <= templates.Keys && worker.types != {}
      modifies this`shared, dicts
      ensures Valid()
      ensures shared == Claim(book, old(shared), worker.types, worker.name)
    {
      var claimed := MakeClaim(worker);
      ghost var after := Current();
      shared := claimed + shared;
      assert Current() == after;
    }

    /** All workers in order: the shared configuration is the one that templates copied in
        depth would have given. */
    method Configure(workers: seq<Worker>)
      requires Valid() && forall w | w in workers :: w.types <= templates.Keys && w.types != {}
      modifies this`shared, dicts
      ensures Valid() && shared == Claims(book, old(shared), workers)
    {
      var i := 0;
      while i < |workers|
        invariant 0 <= i <= |workers| && Valid()
        invariant shared == Claims(book, old(shared), workers[..i])
      {
        ConfigureWorker(workers[i]);
        assert workers[..i + 1][..i] == workers[..i];
        i := i + 1;
      }
      assert workers[..i] == workers;
    }
  }

  // ---- From requests to the shared configuration ----

  lemma WorkersConfigIsProper()
    ensures Proper(WORKERS_CONFIG) && forall key | key in WORKERS_CONFIG.owner ::
        WORKERS_CONFIG.owner[key] in KNOWN_TYPES
  {
  }

  /** A key that was not set before is set exactly when some worker has the type, and then to
      the name of the first such worker. */
  ghost predicate SetToFirst(before: Settings, after: Settings, workers: seq<Worker>, key: string, t: string) {
    key !in before ==>
      && (key in after <==> exists i: nat :: FirstWith(workers, t, i))
      && forall i: nat | FirstWith(workers, t, i) :: key in after && after[key] == Name(workers[i].name)
  }

  /** What the workers claim of the templates as written. */
  ghost function ClaimsOf(shared: Settings, workers: seq<Worker>): Settings {
    WorkersConfigIsProper();
    Claims(WORKERS_CONFIG, shared, workers)
  }

  lemma SettingIs(shared: Settings, workers: seq<Worker>, key: string, t: string)
    requires key in WORKERS_CONFIG.owner && WORKERS_CONFIG.owner[key] == t
    requires key in WORKERS_CONFIG.initial && WORKERS_CONFIG.initial[key] == Placeholder
    ensures SetToFirst(shared, ClaimsOf(shared, workers), workers, key, t)
  {
    WorkersConfigIsProper();
    if key !in shared {
      FirstClaimWins(WORKERS_CONFIG, shared, workers, key);
    }
  }

  lemma UserDirectorySetting(shared: Settings, workers: seq<Worker>)
    ensures SetToFirst(shared, ClaimsOf(shared, workers), workers, "update_user_directory_from_worker", "user_dir")
  {
    SettingIs(shared, workers, "update_user_directory_from_worker", "user_dir");
  }

  lemma MediaJobsSetting(shared: Settings, workers: seq<Worker>)
    ensures SetToFirst(shared, ClaimsOf(shared, workers), workers, "media_instance_running_background_jobs",
                       "media_repository")
  {
    SettingIs(shared, workers, "media_instance_running_background_jobs", "media_repository");
  }

  lemma AppservicesSetting(shared: Settings, workers: seq<Worker>)
    ensures SetToFirst(shared, ClaimsOf(shared, workers), workers, "notify_appservices_from_worker", "appservice")
  {
    SettingIs(shared, workers, "notify_appservices_from_worker", "appservice");
  }

  lemma BackgroundSetting(shared: Settings, workers: seq<Worker>)
    ensures SetToFirst(shared, ClaimsOf(shared, workers), workers, "run_background_tasks_on", "background_worker")
  {
    SettingIs(shared, workers, "run_background_tasks_on", "background_worker");
  }

  /** With a media repository worker the main process gives that task up. */
  lemma MediaSwitch(shared: Settings, workers: seq<Worker>)
    requires "enable_media_repo" !in shared
    ensures var after := ClaimsOf(shared, workers);
            && ("enable_media_repo" in after <==> exists i: nat :: FirstWith(workers, "media_repository", i))
            && ("enable_media_repo" in after ==> after["enable_media_repo"] == Flag(false))
  {
    WorkersConfigIsProper();
    FirstClaimWins(WORKERS_CONFIG, shared, workers, "enable_media_repo");
  }

  /** Who sets what: the setting that names the first worker of each of four types. */
  lemma SettingsAre(shared: Settings, workers: seq<Worker>)
    ensures var after := ClaimsOf(shared, workers);
            && SetToFirst(shared, after, workers, "update_user_directory_from_worker", "user_dir")
            && SetToFirst(shared, after, workers, "media_instance_running_background_jobs", "media_repository")
            && SetToFirst(shared, after, workers, "notify_appservices_from_worker", "appservice")
            && SetToFirst(shared, after, workers, "run_background_tasks_on", "background_worker")
  {
    UserDirectorySetting(shared, workers);
    MediaJobsSetting(shared, workers);
    AppservicesSetting(shared, workers);
    BackgroundSetting(shared, workers);
  }

  lemma PlannedTypes(list: seq<string>, w: Worker)
    requires Plannable(list) && w in WorkersOf(Plans(list))
    ensures w.types <= KNOWN_TYPES && w.types != {}
  {
    var i :| 0 <= i < |list| && w == WorkersOf(Plans(list))[i];
    assert Plans(list)[i] == Parsed(list[i]).value;
    PlanHasTypes(list[i]);
  }

  lemma PlanHasTypes(s: string)
    requires Parsed(s).Some?
    ensures Parsed(s).value.types != {}
  {
    var sides := SplitAndStrip(s, '=');
    var parts := SplitAndStrip(if |sides| == 2 then sides[1] else s, '+');
    assert parts[0] in Parsed(s).value.types;
  }

  /** The shared configuration for the requested workers, from the one before any of them. */
  method SharedConfig(requests: seq<string>, readInt: IntReader, shared: Settings) returns (r: Option<Settings>)
    ensures r.Some? <==> Expanded(requests, readInt).Some? && Plannable(Expanded(requests, readInt).value)
    ensures r.Some? ==> Proper(WORKERS_CONFIG)
                        && r.value == Claims(WORKERS_CONFIG, shared,
                            WorkersOf(Plans(Expanded(requests, readInt).value)))
  {
    var workers := ParseWorkerTypes(requests, readInt);
    if workers.None? {
      return None;
    }
    WorkersConfigIsProper();
    forall w | w in workers.value ensures w.types <= KNOWN_TYPES && w.types != {} {
      PlannedTypes(Expanded(requests, readInt).value, w);
    }
    var templates := MakeTemplates(WORKERS_CONFIG, KNOWN_TYPES);
    var g := new Generator(WORKERS_CONFIG, templates, shared);
    g.Configure(workers.value);
    return Some(g.shared);
  }
}
