/** Configuration checks: where the distinct names the stores rely on come from. */
module Config {
  import opened Monitoring
  import opened RowStore

  datatype MonitorConfig = MonitorConfig(name: string, url: string)

  datatype NotifierConfig = NotifierConfig(kind: string, url: string)

  datatype Config = Config(monitors: seq<MonitorConfig>, notifiers: seq<NotifierConfig>)

  datatype Error =
    | NoMonitors
    | EmptyName(index: nat)
    | EmptyUrl(name: string)
    | InvalidUrl(name: string, url: string)
    | DuplicateName(name: string)
    | EmptyNotifierType(index: nat)
    | EmptyNotifierUrl(kind: string)

  /** What is wrong with entry `i` as such; URL syntax is judged by `validUrl`. */
  function EntryError(ms: seq<MonitorConfig>, i: nat, validUrl: string -> bool): Option<Error>
    requires i < |ms|
  {
    var m := ms[i];
    if m.name == "" then Some(EmptyName(i))
    else if m.url == "" then Some(EmptyUrl(m.name))
    else if !validUrl(m.url) then Some(InvalidUrl(m.name, m.url))
    else if exists j :: 0 <= j < i && ms[j].name == m.name then Some(DuplicateName(m.name))
    else None
  }

  function NotifierError(ns: seq<NotifierConfig>, i: nat): Option<Error>
    requires i < |ns|
  {
    if ns[i].kind == "" then Some(EmptyNotifierType(i))
    else if ns[i].url == "" then Some(EmptyNotifierUrl(ns[i].kind))
    else None
  }

  ghost predicate MonitorsFineBefore(ms: seq<MonitorConfig>, i: nat, validUrl: string -> bool)
    requires i <= |ms|
  {
    forall j :: 0 <= j < i ==> EntryError(ms, j, validUrl).None?
  }

  ghost predicate NotifiersFineBefore(ns: seq<NotifierConfig>, i: nat)
    requires i <= |ns|
  {
    forall j :: 0 <= j < i ==> NotifierError(ns, j).None?
  }

  /** The first complaint in reading order, monitors before notifiers. */
  ghost predicate IsFirstError(c: Config, validUrl: string -> bool, e: Error) {
    var ms, ns := c.monitors, c.notifiers;
    if ms == [] then e == NoMonitors
    else if MonitorsFine(c, validUrl) then
      exists i :: 0 <= i < |ns| && NotifierError(ns, i) == Some(e) && NotifiersFineBefore(ns, i)
    else
      exists i :: 0 <= i < |ms| && EntryError(ms, i, validUrl) == Some(e) && MonitorsFineBefore(ms, i, validUrl)
  }

  ghost predicate MonitorsFine(c: Config, validUrl: string -> bool) {
    c.monitors != [] && forall i :: 0 <= i < |c.monitors| ==> EntryError(c.monitors, i, validUrl).None?
  }

  ghost predicate Acceptable(c: Config, validUrl: string -> bool) {
    MonitorsFine(c, validUrl) && forall i :: 0 <= i < |c.notifiers| ==> NotifierError(c.notifiers, i).None?
  }

  /** What makes an entry right, and what each complaint is about. */
  lemma EntryMeans(ms: seq<MonitorConfig>, i: nat, validUrl: string -> bool)
    requires i < |ms|
    ensures EntryError(ms, i, validUrl).None? <==>
      && ms[i].name != "" && ms[i].url != "" && validUrl(ms[i].url)
      && forall j :: 0 <= j < i ==> ms[j].name != ms[i].name
  {
  }

  lemma NotifierMeans(ns: seq<NotifierConfig>, i: nat)
    requires i < |ns|
    ensures NotifierError(ns, i).None? <==> ns[i].kind != "" && ns[i].url != ""
  {
  }

  lemma EntriesFine(c: Config, validUrl: string -> bool)
    ensures (forall i :: 0 <= i < |c.monitors| ==> EntryError(c.monitors, i, validUrl).None?) <==>
      && (forall i :: 0 <= i < |c.monitors| ==>
        c.monitors[i].name != "" && c.monitors[i].url != "" && validUrl(c.monitors[i].url))
      && (forall i, j :: 0 <= i < j < |c.monitors| ==> c.monitors[i].name != c.monitors[j].name)
    ensures (forall i :: 0 <= i < |c.notifiers| ==> NotifierError(c.notifiers, i).None?) <==>
      (forall i :: 0 <= i < |c.notifiers| ==> c.notifiers[i].kind != "" && c.notifiers[i].url != "")
  {
    hide EntryError, NotifierError;
    forall i | 0 <= i < |c.monitors|
      ensures EntryError(c.monitors, i, validUrl).None? <==>
        c.monitors[i].name != "" && c.monitors[i].url != "" && validUrl(c.monitors[i].url)
        && forall j :: 0 <= j < i ==> c.monitors[j].name != c.monitors[i].name
    {
      EntryMeans(c.monitors, i, validUrl);
    }
    forall i | 0 <= i < |c.notifiers|
      ensures NotifierError(c.notifiers, i).None? <==> c.notifiers[i].kind != "" && c.notifiers[i].url != ""
    {
      NotifierMeans(c.notifiers, i);
    }
  }

  method Validate(c: Config, validUrl: string -> bool) returns (e: Option<Error>)
    ensures e.None? <==> Acceptable(c, validUrl)
    ensures e.Some? ==> IsFirstError(c, validUrl, e.value)
    ensures e.None? <==>
      && c.monitors != []
      && (forall i :: 0 <= i < |c.monitors| ==>
        c.monitors[i].name != "" && c.monitors[i].url != "" && validUrl(c.monitors[i].url))
      && (forall i, j :: 0 <= i < j < |c.monitors| ==> c.monitors[i].name != c.monitors[j].name)
      && (forall i :: 0 <= i < |c.notifiers| ==> c.notifiers[i].kind != "" && c.notifiers[i].url != "")
    ensures e == Some(NoMonitors) ==> c.monitors == []
    ensures e.Some? && e.value.EmptyName? ==>
      e.value.index < |c.monitors| && c.monitors[e.value.index].name == ""
    ensures e.Some? && e.value.EmptyUrl? ==>
      exists i :: 0 <= i < |c.monitors| && c.monitors[i].name == e.value.name != "" && c.monitors[i].url == ""
    ensures e.Some? && e.value.InvalidUrl? ==>
      && e.value.url != "" && !validUrl(e.value.url)
      && exists i ::
        0 <= i < |c.monitors| && c.monitors[i].name == e.value.name != "" && c.monitors[i].url == e.value.url
    ensures e.Some? && e.value.DuplicateName? ==>
      exists i, j :: 0 <= i < j < |c.monitors| && c.monitors[i].name == c.monitors[j].name == e.value.name
    ensures e.Some? && e.value.EmptyNotifierType? ==>
      e.value.index < |c.notifiers| && c.notifiers[e.value.index].kind == ""
    ensures e.Some? && e.value.EmptyNotifierUrl? ==>
      exists i :: 0 <= i < |c.notifiers| && c.notifiers[i].kind == e.value.kind != "" && c.notifiers[i].url == ""
  {
    EntriesFine(c, validUrl);
    if |c.monitors| == 0 {
      return Some(NoMonitors);
    }
    var seen: set<string> := {};
    for i := 0 to |c.monitors|
      invariant forall n :: n in seen <==> exists j :: 0 <= j < i && c.monitors[j].name == n
      invariant forall j :: 0 <= j < i ==> EntryError(c.monitors, j, validUrl).None?
    {
      var m := c.monitors[i];
      ghost var verdict := EntryError(c.monitors, i, validUrl);
      if m.name == "" {
        assert verdict == Some(EmptyName(i));
        return Some(EmptyName(i));
      }
      if m.url == "" {
        assert verdict == Some(EmptyUrl(m.name));
        return Some(EmptyUrl(m.name));
      }
      if !validUrl(m.url) {
        assert verdict == Some(InvalidUrl(m.name, m.url));
        return Some(InvalidUrl(m.name, m.url));
      }
      if m.name in seen {
        assert verdict == Some(DuplicateName(m.name));
        return Some(DuplicateName(m.name));
      }
      seen := seen + {m.name};
    }
    for i := 0 to |c.notifiers|
      invariant forall j :: 0 <= j < i ==> NotifierError(c.notifiers, j).None?
    {
      var n := c.notifiers[i];
      ghost var verdict := NotifierError(c.notifiers, i);
      if n.kind == "" {
        assert verdict == Some(EmptyNotifierType(i));
        return Some(EmptyNotifierType(i));
      }
      if n.url == "" {
        assert verdict == Some(EmptyNotifierUrl(n.kind));
        return Some(EmptyNotifierUrl(n.kind));
      }
    }
    return None;
  }

  function MonitorsOf(c: Config): (ms: seq<Monitor>)
    ensures |ms| == |c.monitors|
    ensures forall i :: 0 <= i < |ms| ==> ms[i] == Monitor(c.monitors[i].name, c.monitors[i].url)
  {
    seq(|c.monitors|, i requires 0 <= i < |c.monitors| => Monitor(c.monitors[i].name, c.monitors[i].url))
  }

  method ToMonitors(c: Config) returns (out: seq<Monitor>)
    ensures out == MonitorsOf(c)
  {
    out := [];
    for i := 0 to |c.monitors|
      invariant out == MonitorsOf(c)[..i]
    {
      out := out + [Monitor(c.monitors[i].name, c.monitors[i].url)];
    }
  }

  lemma AcceptableNamesDistinct(c: Config, validUrl: string -> bool)
    requires Acceptable(c, validUrl)
    ensures DistinctNames(MonitorsOf(c)) && ValidList(MonitorsOf(c))
  {
    forall i | 0 <= i < |c.monitors| ensures c.monitors[i].name != "" && c.monitors[i].url != "" {
      assert EntryError(c.monitors, i, validUrl).None?;
    }
    forall i, j | 0 <= i < j < |c.monitors| ensures c.monitors[i].name != c.monitors[j].name {
      assert EntryError(c.monitors, j, validUrl).None?;
    }
  }

  /** Seeding or reloading from any accepted configuration makes `List` return exactly its
      monitors, in file order, whatever the table held before. */
  lemma ReloadIsHistoryIndependent(c: Config, validUrl: string -> bool, out: seq<Monitor>)
    requires Acceptable(c, validUrl)
    ensures IsListing(Upserts(MonitorsOf(c)), out) <==> out == MonitorsOf(c)
  {
    AcceptableNamesDistinct(c, validUrl);
    ListEchoesSync(MonitorsOf(c));
    ListAfterSync(MonitorsOf(c), out);
    ListAfterSync(MonitorsOf(c), MonitorsOf(c));
  }
}
