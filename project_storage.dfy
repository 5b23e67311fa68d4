/**
 * The browser fallback of the project store: every companion project is
 * kept in one JSON array under a single key of the key-value store. Each
 * operation reads the whole array, edits it, and writes it back.
 *
 * As with the connection settings, `JSON.stringify` and `JSON.parse` are a
 * pair of functions in a `ProjectsCodec`. `parse` tells apart text that is
 * not JSON (the read's `catch` turns it into no projects), JSON that is not
 * an array (handed on as it is, so the array method called on it next
 * throws), and an array of projects. The clock and the random id are
 * parameters.
 */
module ProjectStorage {
  import opened Common
  import opened KeyValueStore
  import opened Seqs
  import opened Workspace

  datatype Project = Project(
    id: string, name: string, avcFilePath: string, avcFileName: string,
    createdAt: string, lastOpened: string, cues: seq<Cue>,
    resolumeHost: string, resolumePort: int)

  datatype ProjectMetadata = ProjectMetadata(
    id: string, name: string, avcFileName: string, avcFilePath: string,
    createdAt: string, lastOpened: string, cueCount: nat)

  /** What a save reports: the web fallback always reports success with the project's id. */
  datatype SaveResult = SaveResult(success: bool, id: Option<string>, error: Option<string>)

  /** What `JSON.parse` makes of a stored text: an exception, a value that is not an array, or an array. */
  datatype ParsedProjects = NotJson | NotAnArray | ProjectArray(projects: seq<Project>)

  datatype ProjectsCodec = ProjectsCodec(stringify: seq<Project> -> string, parse: string -> ParsedProjects)

  const ProjectsKey: string := "companion-projects"
  const UnknownFileName: string := "unknown.avc"

  /**
   * The message of the `TypeError` an array method raises on a stored value
   * that is not an array; its wording is the JavaScript engine's.
   */
  const NotAnArrayError: string := "stored projects are not an array"

  /** Serialising `ps` gives a non-empty text (an array literal), and parsing it gives back the same projects. */
  ghost predicate RoundTrips(codec: ProjectsCodec, ps: seq<Project>) {
    codec.stringify(ps) != "" && codec.parse(codec.stringify(ps)) == ProjectArray(ps)
  }

  /**
   * `getLocalStorageProjects`: no projects when the key is missing or empty
   * or its text is not JSON; the stored array when it is one; `None` when
   * the text is JSON of another kind, which the caller's array method then
   * fails on.
   */
  function Stored(items: map<string, string>, codec: ProjectsCodec): (r: Option<seq<Project>>)
    ensures ProjectsKey !in items || items[ProjectsKey] == "" ==> r == Some([])
    ensures ProjectsKey in items && items[ProjectsKey] != "" ==>
      && (codec.parse(items[ProjectsKey]).NotJson? ==> r == Some([]))
      && (codec.parse(items[ProjectsKey]).NotAnArray? ==> r.None?)
      && (codec.parse(items[ProjectsKey]).ProjectArray? ==> r == Some(codec.parse(items[ProjectsKey]).projects))
  {
    if ProjectsKey !in items || items[ProjectsKey] == "" then Some([])
    else match codec.parse(items[ProjectsKey])
      case NotJson => Some([])
      case NotAnArray => None
      case ProjectArray(ps) => Some(ps)
  }

  /** The store contents after writing `ps`. */
  function Written(items: map<string, string>, codec: ProjectsCodec, ps: seq<Project>): map<string, string> {
    items[ProjectsKey := codec.stringify(ps)]
  }

  /** `findIndex` by id: the first position holding that id, if any. */
  function FindIndex(ps: seq<Project>, id: string): (r: Option<nat>)
    ensures r.Some? ==> (r.value < |ps| && ps[r.value].id == id
      && forall j :: 0 <= j < r.value ==> ps[j].id != id)
    ensures r.None? ==> forall j :: 0 <= j < |ps| ==> ps[j].id != id
  {
    if ps == [] then None
    else if ps[0].id == id then Some(0)
    else match FindIndex(ps[1..], id)
      case None => None
      case Some(k) => Some(k + 1)
  }

  /** `find` by id: the first project holding that id, or `None` (the source's `null`). */
  function FindProject(ps: seq<Project>, id: string): (r: Option<Project>)
    ensures r.Some? <==> exists j :: 0 <= j < |ps| && ps[j].id == id
    ensures r.Some? ==> r.value.id == id && r.value in ps
    ensures r.Some? ==> exists i :: (0 <= i < |ps| && r.value == ps[i]
                                     && forall j :: 0 <= j < i ==> ps[j].id != id)
  {
    match FindIndex(ps, id)
      case None => None
      case Some(i) => Some(ps[i])
  }

  /**
   * The array after saving `p`: replaced at the first position with its id,
   * else appended. Nothing with another id moves or changes.
   */
  function Upserted(ps: seq<Project>, p: Project): (r: seq<Project>)
    ensures p in r
    ensures |r| == if exists j :: 0 <= j < |ps| && ps[j].id == p.id then |ps| else |ps| + 1
    ensures forall j :: 0 <= j < |ps| && ps[j].id != p.id ==> r[j] == ps[j]
  {
    match FindIndex(ps, p.id)
      case Some(i) => assert ps[i := p][i] == p; ps[i := p]
      case None => ps + [p]
  }

  function KeepUnless(id: string): Project -> bool {
    (p: Project) => p.id != id
  }

  /** The array after deleting `id`: every project with a different id, in order. */
  function WithoutId(ps: seq<Project>, id: string): (r: seq<Project>)
    ensures forall q :: q in r <==> q in ps && q.id != id
  {
    Filter(ps, KeepUnless(id))
  }

  function Metadata(p: Project): ProjectMetadata {
    ProjectMetadata(p.id, p.name, p.avcFileName, p.avcFilePath, p.createdAt, p.lastOpened, |p.cues|)
  }

  /** The listing: one summary per stored project, in the same order, counting its cues. */
  function ListMetadata(ps: seq<Project>): (ms: seq<ProjectMetadata>)
    ensures |ms| == |ps|
    ensures forall i :: 0 <= i < |ps| ==> (ms[i].id == ps[i].id && ms[i].name == ps[i].name
      && ms[i].avcFilePath == ps[i].avcFilePath && ms[i].avcFileName == ps[i].avcFileName
      && ms[i].createdAt == ps[i].createdAt && ms[i].lastOpened == ps[i].lastOpened
      && ms[i].cueCount == |ps[i].cues|)
  {
    seq(|ps|, i requires 0 <= i < |ps| => Metadata(ps[i]))
  }

  predicate IsPathSeparator(c: char) {
    c == '/' || c == '\\'
  }

  /** The last element of `path.split(/[\\/]/)`: the text after the last separator, or all of it. */
  function LastSegment(path: string): (r: string)
    ensures |r| <= |path| && r == path[|path| - |r|..]
    ensures forall i :: 0 <= i < |r| ==> !IsPathSeparator(r[i])
    ensures |r| < |path| ==> IsPathSeparator(path[|path| - |r| - 1])
  {
    if path == [] || IsPathSeparator(path[|path| - 1]) then []
    else LastSegment(path[..|path| - 1]) + [path[|path| - 1]]
  }

  /** The file name recorded for a project: the last segment, or `unknown.avc` when it is empty. */
  function FileNameOf(path: string): (r: string)
    ensures r != ""
    ensures LastSegment(path) != "" ==> r == LastSegment(path)
    ensures LastSegment(path) == "" ==> r == UnknownFileName
  {
    if LastSegment(path) == "" then UnknownFileName else LastSegment(path)
  }

  /** The project `createProject` builds: no cues, aimed at localhost:8080, created and opened at `now`. */
  function NewProject(id: string, name: string, avcPath: string, now: string): (p: Project)
    ensures p.id == id && p.name == name && p.avcFilePath == avcPath && p.avcFileName == FileNameOf(avcPath)
    ensures p.createdAt == now && p.lastOpened == now
    ensures p.cues == [] && p.resolumeHost == "localhost" && p.resolumePort == 8080
  {
    Project(id, name, avcPath, FileNameOf(avcPath), now, now, [], "localhost", 8080)
  }

  class ProjectStore {
    const store: Storage
    const codec: ProjectsCodec

    constructor (store: Storage, codec: ProjectsCodec)
      ensures this.store == store && this.codec == codec
    {
      this.store := store;
      this.codec := codec;
    }

    /** `getLocalStorageProjects`. */
    method ReadProjects() returns (r: Option<seq<Project>>)
      ensures r == Stored(store.items, codec)
    {
      var data := store.GetItem(ProjectsKey);
      if data.None? || data.value == "" {
        return Some([]);
      }
      var parsed := codec.parse(data.value);
      match parsed
      case NotJson => r := Some([]);
      case NotAnArray => r := None;
      case ProjectArray(ps) => r := Some(ps);
    }

    /**
     * `saveProject`: replace the project with the same id in the array, or
     * append it, then write the array. When the stored value is not an
     * array, `findIndex` throws, the `catch` reports failure, and nothing is
     * written.
     */
    method SaveProject(p: Project) returns (r: SaveResult)
      modifies store
      ensures var stored := Stored(old(store.items), codec);
        && (stored.Some? ==>
              store.items == Written(old(store.items), codec, Upserted(stored.value, p))
              && r == SaveResult(true, Some(p.id), None))
        && (stored.None? ==>
              store.items == old(store.items) && r == SaveResult(false, None, Some(NotAnArrayError)))
    {
      var read := ReadProjects();
      if read.None? {
        return SaveResult(false, None, Some(NotAnArrayError));
      }
      var projects := read.value;
      var existingIndex := FindIndex(projects, p.id);
      if existingIndex.Some? {
        projects := projects[existingIndex.value := p];
      } else {
        projects := projects + [p];
      }
      store.SetItem(ProjectsKey, codec.stringify(projects));
      r := SaveResult(true, Some(p.id), None);
    }

    /** `loadProject`: the first stored project with that id, or `None`; rejects when the stored value is not an array. */
    method LoadProject(projectId: string) returns (r: Outcome<Option<Project>>)
      ensures var stored := Stored(store.items, codec);
        && (stored.Some? ==> r == Returned(FindProject(stored.value, projectId)))
        && (stored.None? ==> r == Raised(NotAnArrayError))
    {
      var read := ReadProjects();
      if read.None? {
        return Raised(NotAnArrayError);
      }
      r := Returned(FindProject(read.value, projectId));
    }

    /** `listProjects`: the summaries of the stored projects; rejects when the stored value is not an array. */
    method ListProjects() returns (r: Outcome<seq<ProjectMetadata>>)
      ensures var stored := Stored(store.items, codec);
        && (stored.Some? ==> r == Returned(ListMetadata(stored.value)))
        && (stored.None? ==> r == Raised(NotAnArrayError))
    {
      var read := ReadProjects();
      if read.None? {
        return Raised(NotAnArrayError);
      }
      r := Returned(ListMetadata(read.value));
    }

    /**
     * `deleteProject`: write back the array without that id and report
     * `true`, also when nothing matched; when the stored value is not an
     * array, `filter` throws and the `catch` reports `false`.
     */
    method DeleteProject(projectId: string) returns (ok: bool)
      modifies store
      ensures var stored := Stored(old(store.items), codec);
        && ok == stored.Some?
        && (stored.Some? ==> store.items == Written(old(store.items), codec, WithoutId(stored.value, projectId)))
        && (stored.None? ==> store.items == old(store.items))
    {
      var read := ReadProjects();
      if read.None? {
        return false;
      }
      var filtered := WithoutId(read.value, projectId);
      store.SetItem(ProjectsKey, codec.stringify(filtered));
      ok := true;
    }

    /** `createProject`: build the project, save it, and return it whatever the save reported. */
    method CreateProject(name: string, avcPath: string, id: string, now: string) returns (p: Project)
      modifies store
      ensures p == NewProject(id, name, avcPath, now)
      ensures var stored := Stored(old(store.items), codec);
        && (stored.Some? ==> store.items == Written(old(store.items), codec, Upserted(stored.value, p)))
        && (stored.None? ==> store.items == old(store.items))
    {
      p := NewProject(id, name, avcPath, now);
      var ignored := SaveProject(p);
    }

    /**
     * `updateLastOpened`: when the project exists, stamp it with `now` and
     * save it; otherwise write nothing. It rejects, writing nothing, when
     * the stored value is not an array.
     */
    method UpdateLastOpened(projectId: string, now: string) returns (r: Outcome<()>)
      modifies store
      ensures var stored := Stored(old(store.items), codec);
        && (stored.None? ==> r == Raised(NotAnArrayError) && store.items == old(store.items))
        && (stored.Some? ==> r == Returned(()) && var found := FindProject(stored.value, projectId);
              && (found.None? ==> store.items == old(store.items))
              && (found.Some? ==> store.items == Written(old(store.items), codec,
                    Upserted(stored.value, found.value.(lastOpened := now)))))
    {
      var project := LoadProject(projectId);
      if project.Raised? {
        return Raised(project.message);
      }
      if project.value.Some? {
        var ignored := SaveProject(project.value.value.(lastOpened := now));
      }
      r := Returned(());
    }
  }

  // ---------------------------------------------------------------------
  // Properties
  // ---------------------------------------------------------------------

  /** Saving replaces in place when the id is present (nothing else changes) and appends otherwise. */
  lemma UpsertShape(ps: seq<Project>, p: Project)
    ensures var r := Upserted(ps, p);
      && (FindIndex(ps, p.id).Some? ==> (|r| == |ps|
            && r[FindIndex(ps, p.id).value] == p
            && forall j :: 0 <= j < |ps| && j != FindIndex(ps, p.id).value ==> r[j] == ps[j]))
      && (FindIndex(ps, p.id).None? ==> r == ps + [p])
  {
  }

  /** Saving grows the array by at most one project. */
  lemma UpsertGrowsByAtMostOne(ps: seq<Project>, p: Project)
    ensures |ps| <= |Upserted(ps, p)| <= |ps| + 1
    ensures |Upserted(ps, p)| == |ps| + 1 <==> forall j :: 0 <= j < |ps| ==> ps[j].id != p.id
  {
  }

  /** After a save, finding by the saved id gives back the saved project. */
  lemma UpsertThenFind(ps: seq<Project>, p: Project)
    ensures FindProject(Upserted(ps, p), p.id) == Some(p)
  {
    var r := Upserted(ps, p);
    match FindIndex(ps, p.id)
    case Some(i) =>
      assert forall j :: 0 <= j < i ==> r[j].id != p.id;
      assert FindIndex(r, p.id) == Some(i) by { FindIndexIsFirst(r, p.id, i); }
    case None =>
      assert forall j :: 0 <= j < |ps| ==> r[j].id != p.id;
      FindIndexIsFirst(r, p.id, |ps|);
  }

  /** `FindIndex` picks the first position with the id. */
  lemma {:induction false} FindIndexIsFirst(ps: seq<Project>, id: string, i: nat)
    requires i < |ps| && ps[i].id == id
    requires forall j :: 0 <= j < i ==> ps[j].id != id
    ensures FindIndex(ps, id) == Some(i)
  {
    if i > 0 {
      FindIndexIsFirst(ps[1..], id, i - 1);
    }
  }

  /** After a delete, nothing with that id is found, and every other project is still found as before. */
  lemma DeleteThenFind(ps: seq<Project>, id: string, other: string)
    requires other != id
    ensures FindProject(WithoutId(ps, id), id).None?
    ensures FindProject(WithoutId(ps, other), id) == FindProject(ps, id)
  {
    FindAfterFilter(ps, other, id);
  }

  /** Finding an id that the first project does not have searches the rest. */
  lemma FindSkipsHead(ps: seq<Project>, id: string)
    requires ps != [] && ps[0].id != id
    ensures FindProject(ps, id) == FindProject(ps[1..], id)
  {
    match FindIndex(ps[1..], id)
    case None =>
    case Some(k) =>
  }

  lemma {:induction false} FindAfterFilter(ps: seq<Project>, other: string, id: string)
    requires other != id
    ensures FindProject(Filter(ps, KeepUnless(other)), id) == FindProject(ps, id)
  {
    if ps != [] {
      var rest := Filter(ps[1..], KeepUnless(other));
      FindAfterFilter(ps[1..], other, id);
      if ps[0].id == id {
        assert Filter(ps, KeepUnless(other)) == [ps[0]] + rest;
        assert FindIndex([ps[0]] + rest, id) == Some(0);
      } else {
        FindSkipsHead(ps, id);
        if ps[0].id != other {
          var f := [ps[0]] + rest;
          assert Filter(ps, KeepUnless(other)) == f;
          assert f[1..] == rest;
          FindSkipsHead(f, id);
        } else {
          assert Filter(ps, KeepUnless(other)) == rest;
        }
      }
    }
  }

  /** Deleting keeps the order of the projects that remain. */
  lemma DeleteKeepsOrder(a: seq<Project>, b: seq<Project>, id: string)
    ensures WithoutId(a + b, id) == WithoutId(a, id) + WithoutId(b, id)
  {
    FilterAppend(a, b, KeepUnless(id));
  }

  /** Deleting an id that is not stored writes back the same array. */
  lemma DeleteAbsentIsNoop(ps: seq<Project>, id: string)
    requires FindProject(ps, id).None?
    ensures WithoutId(ps, id) == ps
  {
    FilterKeepsAll(ps, KeepUnless(id));
  }

  /** An unwritten store, or one whose text is not JSON, reads as no projects. */
  lemma UnreadableStoreIsEmpty(items: map<string, string>, codec: ProjectsCodec)
    requires ProjectsKey !in items || codec.parse(items[ProjectsKey]).NotJson?
    ensures Stored(items, codec) == Some([])
    ensures ListMetadata(Stored(items, codec).value) == []
  {
  }

  /** Written projects are read back as they were, when the codec round-trips them. */
  lemma WrittenReadsBack(items: map<string, string>, codec: ProjectsCodec, ps: seq<Project>)
    requires RoundTrips(codec, ps)
    ensures Stored(Written(items, codec, ps), codec) == Some(ps)
  {
    assert Written(items, codec, ps)[ProjectsKey] == codec.stringify(ps);
  }

  /** The round-trip requirement is one some codec meets, whatever the projects. */
  lemma RoundTripsIsMeetable(ps: seq<Project>)
    ensures exists codec :: RoundTrips(codec, ps)
  {
    var codec := ProjectsCodec(qs => "[]", t => ProjectArray(ps));
    assert RoundTrips(codec, ps);
  }

  /**
   * A save followed by a load gives back the saved project, when the store
   * held an array and the codec round-trips the array written.
   */
  lemma SaveThenLoad(items: map<string, string>, codec: ProjectsCodec, p: Project)
    requires Stored(items, codec).Some?
    requires RoundTrips(codec, Upserted(Stored(items, codec).value, p))
    ensures var after := Stored(Written(items, codec, Upserted(Stored(items, codec).value, p)), codec);
      after.Some? && FindProject(after.value, p.id) == Some(p)
  {
    var ps := Upserted(Stored(items, codec).value, p);
    WrittenReadsBack(items, codec, ps);
    UpsertThenFind(Stored(items, codec).value, p);
  }

  /**
   * A delete followed by a load finds nothing, when the store held an array
   * and the codec round-trips the array written.
   */
  lemma DeleteThenLoad(items: map<string, string>, codec: ProjectsCodec, id: string)
    requires Stored(items, codec).Some?
    requires RoundTrips(codec, WithoutId(Stored(items, codec).value, id))
    ensures var after := Stored(Written(items, codec, WithoutId(Stored(items, codec).value, id)), codec);
      after.Some? && FindProject(after.value, id).None?
  {
    WrittenReadsBack(items, codec, WithoutId(Stored(items, codec).value, id));
  }

  /** A created project lists with no cues; it is appended when its id is new. */
  lemma CreatedProjectIsListed(ps: seq<Project>, id: string, name: string, avcPath: string, now: string)
    requires FindProject(ps, id).None?
    ensures var listed := ListMetadata(Upserted(ps, NewProject(id, name, avcPath, now)));
      |listed| == |ps| + 1 && listed[|ps|].id == id && listed[|ps|].cueCount == 0
  {
  }

  /** For a path ending in a non-empty name without separators, the recorded file name is that name. */
  lemma {:induction false} FileNameOfPath(dir: string, sep: char, name: string)
    requires IsPathSeparator(sep) && name != []
    requires forall i :: 0 <= i < |name| ==> !IsPathSeparator(name[i])
    ensures FileNameOf(dir + [sep] + name) == name
  {
    LastSegmentOfName(dir + [sep], name);
  }

  lemma {:induction false} LastSegmentOfName(prefix: string, name: string)
    requires prefix != [] && IsPathSeparator(prefix[|prefix| - 1])
    requires forall i :: 0 <= i < |name| ==> !IsPathSeparator(name[i])
    ensures LastSegment(prefix + name) == name
  {
    if name == [] {
      assert prefix + name == prefix;
    } else {
      var init := name[..|name| - 1];
      assert (prefix + name)[..|prefix + name| - 1] == prefix + init;
      LastSegmentOfName(prefix, init);
      assert init + [name[|name| - 1]] == name;
    }
  }

  /** A path that ends in a separator records `unknown.avc`. */
  lemma FileNameOfDirectory(path: string)
    requires path != [] && IsPathSeparator(path[|path| - 1])
    ensures FileNameOf(path) == UnknownFileName
  {
  }
}
