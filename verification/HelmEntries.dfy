/** The three kinds of list entries the provider injects into Helm values: how they are read,
    written, and replaced. */
module HelmEntries {
  import opened Wrappers
  import opened Json

  type Fields = map<string, Json>

  datatype HelmFailure =
    | Invalid(what: string)
    | NilMapWrite
    | MissingReference(field: string)

  datatype EntryKind = EnvKind | MountKind | VolumeKind

  datatype Entry =
    | EnvVar(name: string, value: string, valueFrom: Option<Json>)
    | VolumeMount(name: string, mountPath: string, rest: Fields)
    | Volume(name: string, source: Fields)
  {
    function Kind(): EntryKind {
      match this
      case EnvVar(_, _, _) => EnvKind
      case VolumeMount(_, _, _) => MountKind
      case Volume(_, _) => VolumeKind
    }

    /** Read from JSON, an entry never repeats its own fields among the others. */
    predicate Valid() {
      match this
      case EnvVar(_, _, from) => from.Some? ==> from.value.Obj?
      case VolumeMount(_, _, rest) => "name" !in rest && "mountPath" !in rest
      case Volume(_, source) => "name" !in source
    }

    /** Whether adding `other` displaces this entry. */
    predicate ConflictsWith(other: Entry) {
      name == other.name || (VolumeMount? && other.VolumeMount? && mountPath == other.mountPath)
    }
  }

  // ----- Reading and writing -----

  function StringField(fields: Fields, key: string): Result<string, HelmFailure> {
    if key !in fields || fields[key].Null? then Ok("")
    else if fields[key].Str? then Ok(fields[key].s)
    else Err(Invalid(key))
  }

  function DecodeFields(kind: EntryKind, fields: Fields): Result<Entry, HelmFailure> {
    var name := StringField(fields, "name");
    if name.Err? then Err(name.error)
    else
      match kind
      case EnvKind =>
        var value := StringField(fields, "value");
        if value.Err? then Err(value.error)
        else if "valueFrom" !in fields || fields["valueFrom"].Null? then Ok(EnvVar(name.value, value.value, None))
        else if fields["valueFrom"].Obj? then Ok(EnvVar(name.value, value.value, Some(fields["valueFrom"])))
        else Err(Invalid("valueFrom"))
      case MountKind =>
        var mountPath := StringField(fields, "mountPath");
        if mountPath.Err? then Err(mountPath.error)
        else Ok(VolumeMount(name.value, mountPath.value, fields - {"name", "mountPath"}))
      case VolumeKind => Ok(Volume(name.value, fields - {"name"}))
  }

  function Decode(kind: EntryKind, j: Json): (r: Result<Entry, HelmFailure>)
    ensures r.Ok? ==> r.value.Valid() && r.value.Kind() == kind
  {
    match j
    case Null => DecodeFields(kind, map[])
    case Obj(fields) => DecodeFields(kind, fields)
    case _ => Err(Invalid("entry"))
  }

  function Encode(e: Entry): Json {
    match e
    case EnvVar(name, value, from) =>
      Obj(map["name" := Str(name)]
          + (if value == "" then map[] else map["value" := Str(value)])
          + (if from.None? then map[] else map["valueFrom" := from.value]))
    case VolumeMount(name, mountPath, rest) => Obj(map["name" := Str(name), "mountPath" := Str(mountPath)] + rest)
    case Volume(name, source) => Obj(map["name" := Str(name)] + source)
  }

  lemma EntryRoundTrip(e: Entry)
    requires e.Valid()
    ensures Decode(e.Kind(), Encode(e)) == Ok(e)
  {
    match e
    case EnvVar(_, _, _) =>
    case VolumeMount(_, _, rest) =>
      assert Encode(e).fields - {"name", "mountPath"} == rest;
    case Volume(_, source) =>
      assert Encode(e).fields - {"name"} == source;
  }

  function DecodeAll(kind: EntryKind, items: seq<Json>): (r: Result<seq<Entry>, HelmFailure>)
    ensures r.Ok? ==> forall e :: e in r.value ==> e.Valid() && e.Kind() == kind
  {
    if items == [] then Ok([])
    else
      var first := Decode(kind, items[0]);
      if first.Err? then Err(first.error)
      else
        var others := DecodeAll(kind, items[1..]);
        if others.Err? then others else Ok([first.value] + others.value)
  }

  function EncodeAll(entries: seq<Entry>): seq<Json> {
    if entries == [] then [] else [Encode(entries[0])] + EncodeAll(entries[1..])
  }

  /** What was written is read back unchanged. */
  lemma {:induction false} ListRoundTrip(kind: EntryKind, entries: seq<Entry>)
    requires forall e :: e in entries ==> e.Valid() && e.Kind() == kind
    ensures DecodeAll(kind, EncodeAll(entries)) == Ok(entries)
  {
    if entries != [] {
      hide Decode, Encode, Entry.Valid, Entry.Kind;
      var first, others := entries[0], EncodeAll(entries[1..]);
      assert first in entries;
      EntryRoundTrip(first);
      ListRoundTrip(kind, entries[1..]);
      assert EncodeAll(entries) == [Encode(first)] + others;
      assert ([Encode(first)] + others)[1..] == others;
      assert [first] + entries[1..] == entries;
    }
  }

  /** A list member of an object; a missing or null member is an empty list. */
  function ReadList(kind: EntryKind, fields: Fields, key: string): (r: Result<seq<Entry>, HelmFailure>)
    ensures r.Ok? ==> forall e :: e in r.value ==> e.Valid() && e.Kind() == kind
  {
    if key !in fields || fields[key].Null? then Ok([])
    else if fields[key].Arr? then DecodeAll(kind, fields[key].items)
    else Err(Invalid(key))
  }

  // ----- Replacing -----

  predicate Clashes(e: Entry, news: seq<Entry>) {
    exists x | x in news :: e.ConflictsWith(x)
  }

  /** The entries that clash with none of `news`, in order. */
  function Keep(entries: seq<Entry>, news: seq<Entry>): seq<Entry> {
    if entries == [] then []
    else
      var rest := Keep(entries[1..], news);
      if Clashes(entries[0], news) then rest else [entries[0]] + rest
  }

  function Replace(entries: seq<Entry>, x: Entry): seq<Entry> {
    Keep(entries, [x]) + [x]
  }

  /** Replaces by each of `news` in turn. */
  function Inject(entries: seq<Entry>, news: seq<Entry>): seq<Entry> {
    if news == [] then entries
    else Replace(Inject(entries, news[..|news| - 1]), news[|news| - 1])
  }

  method RemoveConflictingAndAppend(entries: seq<Entry>, x: Entry) returns (r: seq<Entry>)
    ensures r == Replace(entries, x)
  {
    var updated: seq<Entry> := [];
    var i := 0;
    while i < |entries|
      invariant 0 <= i <= |entries|
      invariant updated == Keep(entries[..i], [x])
    {
      KeepOfConcat(entries[..i], [entries[i]], [x]);
      assert entries[..i + 1] == entries[..i] + [entries[i]];
      assert Clashes(entries[i], [x]) <==> entries[i].ConflictsWith(x) by {
        assert x in [x];
      }
      if !entries[i].ConflictsWith(x) {
        updated := updated + [entries[i]];
      }
      i := i + 1;
    }
    assert entries[..i] == entries;
    r := updated + [x];
  }

  lemma {:induction false} KeepOfConcat(a: seq<Entry>, b: seq<Entry>, news: seq<Entry>)
    ensures Keep(a + b, news) == Keep(a, news) + Keep(b, news)
  {
    hide Clashes;
    if a == [] {
      assert a + b == b;
    } else {
      KeepOfConcat(a[1..], b, news);
      assert a + b == [a[0]] + (a[1..] + b);
      assert (a + b)[1..] == a[1..] + b;
    }
  }

  lemma ClashesWithEither(e: Entry, a: seq<Entry>, b: seq<Entry>)
    ensures Clashes(e, a + b) <==> Clashes(e, a) || Clashes(e, b)
  {
    assert forall x :: x in a + b <==> x in a || x in b;
  }

  lemma {:induction false} KeepTwice(entries: seq<Entry>, a: seq<Entry>, b: seq<Entry>)
    ensures Keep(Keep(entries, a), b) == Keep(entries, a + b)
  {
    hide Clashes;
    if entries != [] {
      var e, rest := entries[0], Keep(entries[1..], a);
      KeepTwice(entries[1..], a, b);
      ClashesWithEither(e, a, b);
      assert ([e] + rest)[1..] == rest;
    }
  }

  lemma {:induction false} KeepAll(entries: seq<Entry>, news: seq<Entry>)
    requires forall e :: e in entries ==> !Clashes(e, news)
    ensures Keep(entries, news) == entries
  {
    if entries != [] {
      KeepAll(entries[1..], news);
    }
  }

  lemma {:induction false} KeepNothing(entries: seq<Entry>, news: seq<Entry>)
    requires forall e :: e in entries ==> Clashes(e, news)
    ensures Keep(entries, news) == []
  {
    if entries != [] {
      KeepNothing(entries[1..], news);
    }
  }

  /** No two of the entries displace each other. */
  ghost predicate Apart(entries: seq<Entry>) {
    forall i, j :: 0 <= i < j < |entries| ==> !entries[i].ConflictsWith(entries[j])
  }

  /** What is already injected survives one entry more. */
  lemma FrontSurvives(front: seq<Entry>, x: Entry)
    requires Apart(front + [x])
    ensures Keep(front, [x]) == front
  {
    hide Keep;
    forall e | e in front ensures !Clashes(e, [x]) {
      var i :| 0 <= i < |front| && front[i] == e;
      assert (front + [x])[i] == e && (front + [x])[|front|] == x;
    }
    KeepAll(front, [x]);
  }

  lemma ApartInFront(front: seq<Entry>, x: Entry)
    requires Apart(front + [x])
    ensures Apart(front)
  {
    forall i, j | 0 <= i < j < |front| ensures !front[i].ConflictsWith(front[j]) {
      assert (front + [x])[i] == front[i] && (front + [x])[j] == front[j];
    }
  }

  /** One entry more after `front`. */
  lemma ReplaceAfter(entries: seq<Entry>, front: seq<Entry>, x: Entry)
    requires Apart(front + [x])
    ensures Replace(Keep(entries, front) + front, x) == Keep(entries, front + [x]) + (front + [x])
  {
    hide Keep, Apart, Clashes;
    KeepOfConcat(Keep(entries, front), front, [x]);
    KeepTwice(entries, front, [x]);
    FrontSurvives(front, x);
  }

  /** Injecting entries that do not displace each other puts exactly them at the end. */
  lemma {:induction false} InjectForm(entries: seq<Entry>, news: seq<Entry>)
    requires Apart(news)
    ensures Inject(entries, news) == Keep(entries, news) + news
  {
    hide Keep, Replace, Apart;
    if news == [] {
      KeepWithoutNews(entries);
    } else {
      var front, x := news[..|news| - 1], news[|news| - 1];
      assert news == front + [x];
      ApartInFront(front, x);
      InjectForm(entries, front);
      ReplaceAfter(entries, front, x);
    }
  }

  lemma KeepWithoutNews(entries: seq<Entry>)
    ensures Keep(entries, []) == entries
  {
    KeepAll(entries, []);
  }

  /** Injecting a second time changes nothing, not even the order. */
  lemma InjectTwice(entries: seq<Entry>, news: seq<Entry>)
    requires Apart(news)
    ensures Inject(Inject(entries, news), news) == Inject(entries, news)
  {
    InjectForm(entries, news);
    InjectForm(Inject(entries, news), news);
    KeepOfConcat(Keep(entries, news), news, news);
    KeepTwice(entries, news, news);
    SameClashes(entries, news, news + news);
    KeepNothing(news, news) by {
      forall e | e in news ensures Clashes(e, news) {
        assert e.ConflictsWith(e);
      }
    }
  }

  lemma {:induction false} SameClashes(entries: seq<Entry>, a: seq<Entry>, b: seq<Entry>)
    requires forall x :: x in a <==> x in b
    ensures Keep(entries, a) == Keep(entries, b)
  {
    if entries != [] {
      SameClashes(entries[1..], a, b);
    }
  }

  // ----- What injection means -----

  /** Entries read as settings: a later entry overrides an earlier one of the same name. */
  function Settings(entries: seq<Entry>): map<string, Entry> {
    if entries == [] then map[]
    else Settings(entries[..|entries| - 1])[entries[|entries| - 1].name := entries[|entries| - 1]]
  }

  lemma {:induction false} SettingsOfConcat(a: seq<Entry>, b: seq<Entry>)
    ensures Settings(a + b) == Settings(a) + Settings(b)
  {
    if b == [] {
      assert a + b == a;
    } else {
      SettingsOfConcat(a, b[..|b| - 1]);
      assert (a + b)[..|a + b| - 1] == a + b[..|b| - 1];
    }
  }

  lemma {:induction false} SettingsNames(entries: seq<Entry>)
    ensures forall n :: n in Settings(entries) <==> exists e :: e in entries && e.name == n
  {
    if entries != [] {
      var front, last := entries[..|entries| - 1], entries[|entries| - 1];
      SettingsNames(front);
      assert entries == front + [last];
    }
  }

  lemma ClashIsName(e: Entry, news: seq<Entry>)
    requires e.EnvVar? && forall x :: x in news ==> x.EnvVar?
    ensures Clashes(e, news) <==> e.name in Settings(news)
  {
    SettingsNames(news);
    assert forall x :: x in news ==> (e.ConflictsWith(x) <==> e.name == x.name);
  }

  lemma OfOne(e: Entry, news: seq<Entry>)
    ensures Keep([e], news) == if Clashes(e, news) then [] else [e]
    ensures Settings([e]) == map[e.name := e]
    ensures Count([e], e.name) == 1
  {
    hide Clashes;
    assert [e][1..] == [] && [e][..0] == [];
    assert Keep([], news) == [] && Settings([]) == map[];
  }

  lemma {:induction false} SettingsOfKept(entries: seq<Entry>, news: seq<Entry>)
    requires (forall e :: e in entries ==> e.EnvVar?) && (forall e :: e in news ==> e.EnvVar?)
    ensures Settings(Keep(entries, news)) == Settings(entries) - Settings(news).Keys
  {
    if entries != [] {
      hide Clashes, Keep, Settings;
      var front, last := entries[..|entries| - 1], entries[|entries| - 1];
      assert last in entries;
      SettingsOfKept(front, news);
      assert entries == front + [last];
      KeepOfConcat(front, [last], news);
      SettingsOfConcat(Keep(front, news), Keep([last], news));
      SettingsOfConcat(front, [last]);
      SettingsOfKeptOne(last, news);
      WithoutOne(Settings(front), Settings([last]), Settings(news).Keys);
    } else {
      assert Keep([], news) == [] && Settings([]) == map[];
    }
  }

  lemma SettingsOfKeptOne(e: Entry, news: seq<Entry>)
    requires e.EnvVar? && forall x :: x in news ==> x.EnvVar?
    ensures Settings(Keep([e], news)) == Settings([e]) - Settings(news).Keys
  {
    hide Clashes, Keep, Settings;
    ClashIsName(e, news);
    OfOne(e, news);
    if Clashes(e, news) {
      NoSettings();
    }
  }

  lemma NoSettings()
    ensures Settings([]) == map[]
  {
  }

  lemma WithoutOne(m: map<string, Entry>, one: map<string, Entry>, names: set<string>)
    ensures (m + one) - names == (m - names) + (one - names)
  {
  }

  /** Injecting environment variables overrides them: as settings, the result is the user's
      settings updated with the injected ones. */
  lemma InjectOverrides(entries: seq<Entry>, news: seq<Entry>)
    requires Apart(news) && forall e :: e in entries + news ==> e.EnvVar?
    ensures Settings(Inject(entries, news)) == Settings(entries) + Settings(news)
  {
    hide Inject, Keep, Settings, Apart;
    InjectForm(entries, news);
    SettingsOfConcat(Keep(entries, news), news);
    forall e | e in entries ensures e.EnvVar? {
      assert e in entries + news;
    }
    forall e | e in news ensures e.EnvVar? {
      assert e in entries + news;
    }
    SettingsOfKept(entries, news);
  }

  /** How often a name occurs. */
  function Count(entries: seq<Entry>, name: string): nat {
    if entries == [] then 0 else (if entries[0].name == name then 1 else 0) + Count(entries[1..], name)
  }

  lemma {:induction false} CountOfConcat(a: seq<Entry>, b: seq<Entry>, name: string)
    ensures Count(a + b, name) == Count(a, name) + Count(b, name)
  {
    if a == [] {
      assert a + b == b;
    } else {
      CountOfConcat(a[1..], b, name);
      assert (a + b)[1..] == a[1..] + b;
    }
  }

  lemma {:induction false} CountIsZero(entries: seq<Entry>, name: string)
    requires forall e :: e in entries ==> e.name != name
    ensures Count(entries, name) == 0
  {
    if entries != [] {
      CountIsZero(entries[1..], name);
    }
  }

  lemma {:induction false} KeptDoNotClash(entries: seq<Entry>, news: seq<Entry>)
    ensures forall e :: e in Keep(entries, news) ==> e in entries && !Clashes(e, news)
  {
    if entries != [] {
      KeptDoNotClash(entries[1..], news);
    }
  }

  lemma NoneBefore(news: seq<Entry>, i: nat)
    requires Apart(news) && i < |news|
    ensures Count(news[..i], news[i].name) == 0
  {
    hide Count;
    forall e | e in news[..i] ensures e.name != news[i].name {
      var j :| 0 <= j < i && news[..i][j] == e;
      assert !news[j].ConflictsWith(news[i]);
    }
    CountIsZero(news[..i], news[i].name);
  }

  lemma NoneAfter(news: seq<Entry>, i: nat)
    requires Apart(news) && i < |news|
    ensures Count(news[i + 1..], news[i].name) == 0
  {
    hide Count;
    var after := news[i + 1..];
    forall e | e in after ensures e.name != news[i].name {
      var j :| 0 <= j < |after| && after[j] == e;
      assert !news[i].ConflictsWith(news[i + 1 + j]);
    }
    CountIsZero(after, news[i].name);
  }

  lemma OneOfItsName(news: seq<Entry>, i: nat)
    requires Apart(news) && i < |news|
    ensures Count(news, news[i].name) == 1
  {
    hide Count, Apart;
    var x, before, after := news[i], news[..i], news[i + 1..];
    NoneBefore(news, i);
    NoneAfter(news, i);
    OfOne(x, []);
    CountOfConcat(before, [x] + after, x.name);
    CountOfConcat([x], after, x.name);
    assert news == before + ([x] + after);
  }

  /** Each injected name occurs exactly once, with the injected entry. */
  lemma InjectedOnce(entries: seq<Entry>, news: seq<Entry>, i: nat)
    requires Apart(news) && i < |news|
    ensures Count(Inject(entries, news), news[i].name) == 1
    ensures news[i] in Inject(entries, news)
  {
    hide Keep, Inject, Count, Apart;
    var x := news[i];
    InjectForm(entries, news);
    KeptDoNotClash(entries, news);
    CountOfConcat(Keep(entries, news), news, x.name);
    OneOfItsName(news, i);
    forall e | e in Keep(entries, news) ensures e.name != x.name {
      assert x in news && !e.ConflictsWith(x);
    }
    CountIsZero(Keep(entries, news), x.name);
  }

  /** The surviving entries are the user's, in the user's order, with none left out: `at`
      gives where each of them stood. */
  lemma {:induction false} KeptInOrder(entries: seq<Entry>, news: seq<Entry>) returns (at: seq<nat>)
    ensures PicksFrom(Keep(entries, news), entries, at)
    ensures forall p :: 0 <= p < |entries| && !Clashes(entries[p], news) ==> p in at
  {
    hide Clashes;
    at := [];
    if entries != [] {
      var rest := entries[1..];
      var below := KeptInOrder(rest, news);
      var kept := Keep(rest, news);
      at := PickedLater(kept, rest, below, entries[0]);
      assert [entries[0]] + rest == entries;
      if !Clashes(entries[0], news) {
        PickFirst(kept, entries, at);
        at := [0] + at;
      }
      forall p | 0 <= p < |entries| && !Clashes(entries[p], news) ensures p in at {
        if p > 0 {
          assert rest[p - 1] == entries[p] && p - 1 in below;
        }
      }
    }
  }

  ghost predicate PicksFrom(chosen: seq<Entry>, entries: seq<Entry>, at: seq<nat>) {
    && |at| == |chosen|
    && (forall i :: 0 <= i < |at| ==> at[i] < |entries| && chosen[i] == entries[at[i]])
    && (forall i, j :: 0 <= i < j < |at| ==> at[i] < at[j])
  }

  lemma PickedLater(chosen: seq<Entry>, entries: seq<Entry>, at: seq<nat>, first: Entry) returns (later: seq<nat>)
    requires PicksFrom(chosen, entries, at)
    ensures PicksFrom(chosen, [first] + entries, later) && 0 !in later
    ensures forall p: nat :: p in at ==> p + 1 in later
  {
    later := seq(|at|, (i: nat) requires i < |at| => at[i] + 1);
    forall p: nat | p in at ensures p + 1 in later {
      var i :| 0 <= i < |at| && at[i] == p;
      assert later[i] == p + 1;
    }
  }

  lemma PickFirst(chosen: seq<Entry>, entries: seq<Entry>, at: seq<nat>)
    requires PicksFrom(chosen, entries, at) && 0 !in at && entries != []
    ensures PicksFrom([entries[0]] + chosen, entries, [0] + at)
  {
    forall i | 0 <= i < |at| ensures at[i] > 0 {
      assert at[i] in at;
    }
  }

  /** Volume and mount edits keep names, and mount paths, unique. */
  lemma {:induction false} ReplaceKeepsApart(entries: seq<Entry>, x: Entry)
    requires Apart(entries)
    requires forall e :: e in entries ==> e.Kind() == x.Kind()
    ensures Apart(Replace(entries, x))
  {
    KeptDoNotClash(entries, [x]);
    var at := KeptInOrder(entries, [x]);
    var r := Replace(entries, x);
    forall i, j | 0 <= i < j < |r| ensures !r[i].ConflictsWith(r[j]) {
      if j == |r| - 1 {
        assert r[i] in Keep(entries, [x]) && x in [x];
      } else {
        assert at[i] < at[j];
      }
    }
  }
}
