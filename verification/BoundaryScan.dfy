// The scans for private markers: of the files of the repository, and of the commits of a
// range. What git and the file system answer is an input.
module BoundaryScan {
  import opened Wrappers
  import opened Sorting
  import opened Markers

  // What reading a file, some metadata or a blob yields.
  datatype Answer = Failed | NotUtf8 | Text(text: string)

  datatype Detail =
    | RuntimePath | PathMarker | TextMarker
    | TextNotUtf8 | TextUnreadable
    | RangeUnreadable | MetadataUnreadable | MetadataNotUtf8 | TreeUnreadable | PathNotUtf8
    | BlobUnreadable | BlobNotUtf8 | CommitMarker

  datatype Where = File(path: string) | History(prefix: string) | Range

  datatype Finding = Finding(where: Where, detail: Detail)

  // The markers to look for, and which paths hold text: is_distribution_text.
  datatype Setup = Setup(hashing: Hashing, config: Config, isText: string -> bool)

  const FORBIDDEN := ".gitlab-ci.yml"

  ghost predicate Marked(s: Setup, text: string) {
    HasMarker(s.hashing, text, s.config)
  }

  // bool(matching_marker_ids(text))
  method IsMarked(s: Setup, text: string) returns (marked: bool)
    ensures marked <==> Marked(s, text)
  {
    var ids := MatchingMarkerIds(s.hashing, text, s.config);
    marked := |ids| > 0;
    if marked {
      assert ids[0] in ids;
    }
  }

  // path.replace("\\", "/")
  function ForwardSlashes(path: string): string {
    if path == "" then ""
    else ForwardSlashes(path[..|path| - 1]) + [if path[|path| - 1] == '\\' then '/' else path[|path| - 1]]
  }

  // ---- The repository ---------------------------------------------------------------------

  ghost predicate PathHas(s: Setup, path: string, detail: Detail) {
    var normalized := ForwardSlashes(path);
    match detail
    case RuntimePath => normalized == FORBIDDEN
    case PathMarker => normalized != FORBIDDEN && Marked(s, normalized)
    case _ => false
  }

  ghost function PathFindings(s: Setup, path: string): seq<Finding> {
    if PathHas(s, path, RuntimePath) then [Finding(File(ForwardSlashes(path)), RuntimePath)]
    else if PathHas(s, path, PathMarker) then [Finding(File(ForwardSlashes(path)), PathMarker)]
    else []
  }

  // scan_path
  method ScanPath(s: Setup, path: string) returns (findings: seq<Finding>)
    ensures findings == PathFindings(s, path)
    ensures forall f :: f in findings <==> f.where == File(ForwardSlashes(path)) && PathHas(s, path, f.detail)
  {
    var normalized := ForwardSlashes(path);
    if normalized == FORBIDDEN {
      return [Finding(File(normalized), RuntimePath)];
    }
    var marked := IsMarked(s, normalized);
    if marked {
      return [Finding(File(normalized), PathMarker)];
    }
    findings := [];
  }

  // scan_text
  method ScanText(s: Setup, text: string, path: string) returns (findings: seq<Finding>)
    ensures findings == if s.isText(path) && Marked(s, text) then [Finding(File(path), TextMarker)] else []
    ensures forall f :: f in findings <==> f == Finding(File(path), TextMarker) && s.isText(path) && Marked(s, text)
  {
    if !s.isText(path) {
      return [];
    }
    var marked := IsMarked(s, text);
    findings := if marked then [Finding(File(path), TextMarker)] else [];
  }

  // A file that is gone between listing and reading is None.
  datatype Repository = Repository(paths: seq<string>, read: string -> Option<Answer>)

  ghost predicate FileHas(s: Setup, content: Option<Answer>, detail: Detail) {
    match detail
    case TextNotUtf8 => content == Some(NotUtf8)
    case TextUnreadable => content == Some(Failed)
    case TextMarker => content.Some? && content.value.Text? && Marked(s, content.value.text)
    case _ => false
  }

  // The findings about one listed path.
  ghost predicate Concerns(s: Setup, repo: Repository, path: string, f: Finding) {
    || (f.where == File(ForwardSlashes(path)) && PathHas(s, path, f.detail))
    || (f.where == File(path) && s.isText(path) && FileHas(s, repo.read(path), f.detail))
  }

  // What is wrong with the path, and then what is wrong with the file.
  ghost function FileFindings(s: Setup, repo: Repository, path: string): seq<Finding> {
    if s.isText(path) then PathFindings(s, path) + ContentFindings(s, path, repo.read(path))
    else PathFindings(s, path)
  }

  ghost function ContentFindings(s: Setup, path: string, content: Option<Answer>): seq<Finding> {
    if FileHas(s, content, TextNotUtf8) then [Finding(File(path), TextNotUtf8)]
    else if FileHas(s, content, TextUnreadable) then [Finding(File(path), TextUnreadable)]
    else if FileHas(s, content, TextMarker) then [Finding(File(path), TextMarker)]
    else []
  }

  // In the order of the paths.
  ghost function AllFindings(s: Setup, repo: Repository, paths: seq<string>): seq<Finding> {
    if paths == [] then []
    else AllFindings(s, repo, paths[..|paths| - 1]) + FileFindings(s, repo, paths[|paths| - 1])
  }

  lemma {:induction false} AllFindingsStep(s: Setup, repo: Repository, paths: seq<string>, i: nat)
    requires i < |paths|
    ensures AllFindings(s, repo, paths[..i + 1]) == AllFindings(s, repo, paths[..i]) + FileFindings(s, repo, paths[i])
  {
    assert paths[..i + 1][..i] == paths[..i];
  }

  ghost predicate ConcernsOne(s: Setup, repo: Repository, paths: seq<string>, f: Finding) {
    exists path :: path in paths && Concerns(s, repo, path, f)
  }

  lemma {:induction false} AllFindingsMembers(s: Setup, repo: Repository, paths: seq<string>)
    ensures forall f :: f in AllFindings(s, repo, paths) <==> ConcernsOne(s, repo, paths, f)
  {
    if paths != [] {
      var front, last := paths[..|paths| - 1], paths[|paths| - 1];
      AllFindingsMembers(s, repo, front);
      assert paths == front + [last];
      FileFindingsMembers(s, repo, last);
    }
  }

  lemma {:induction false} FileFindingsMembers(s: Setup, repo: Repository, path: string)
    ensures forall f :: f in FileFindings(s, repo, path) <==> Concerns(s, repo, path, f)
  {
    assert forall f :: f in PathFindings(s, path) <==>
      f.where == File(ForwardSlashes(path)) && PathHas(s, path, f.detail);
    assert forall f :: f in ContentFindings(s, path, repo.read(path)) <==>
      f.where == File(path) && FileHas(s, repo.read(path), f.detail);
  }

  method ScanFile(s: Setup, repo: Repository, path: string) returns (findings: seq<Finding>)
    ensures findings == FileFindings(s, repo, path)
  {
    findings := ScanPath(s, path);
    if !s.isText(path) {
      return;
    }
    match repo.read(path) {
      case None =>
      case Some(NotUtf8) =>
        findings := findings + [Finding(File(path), TextNotUtf8)];
      case Some(Failed) =>
        findings := findings + [Finding(File(path), TextUnreadable)];
      case Some(Text(text)) =>
        var more := ScanText(s, text, path);
        findings := findings + more;
    }
  }

  // scan_repository
  method ScanRepository(s: Setup, repo: Repository) returns (findings: seq<Finding>)
    ensures findings == AllFindings(s, repo, repo.paths)
    ensures forall f :: f in findings <==> ConcernsOne(s, repo, repo.paths, f)
  {
    findings := [];
    for i := 0 to |repo.paths|
      invariant findings == AllFindings(s, repo, repo.paths[..i])
    {
      var more := ScanFile(s, repo, repo.paths[i]);
      AllFindingsStep(s, repo, repo.paths, i);
      findings := findings + more;
    }
    assert findings == AllFindings(s, repo, repo.paths) by {
      assert repo.paths[..|repo.paths|] == repo.paths;
    }
    AllFindingsMembers(s, repo, repo.paths);
  }

  // ---- The history ------------------------------------------------------------------------

  // A path as git prints it.
  datatype RawPath = Utf8(path: string) | BadBytes

  // An entry of a tree listing. Only well-formed blob entries are decoded.
  datatype TreeEntry = TreeEntry(blob: bool, path: RawPath)

  // What git answers about a revision: the commit metadata, the paths it changes, its tree
  // and the blobs in it.
  datatype Git = Git(
    revisions: Option<seq<string>>,
    metadata: string -> Answer,
    changed: string -> Option<seq<RawPath>>,
    tree: string -> Option<seq<TreeEntry>>,
    blob: (string, string) -> Answer)

  // The output lines of rev-list, without blanks around them; blank lines name no revision.
  predicate Listed(git: Git, revision: string) {
    git.revisions.Some? && revision in git.revisions.value && revision != ""
  }

  predicate Decodable(changed: seq<RawPath>, tree: seq<TreeEntry>) {
    BadBytes !in changed && TreeEntry(true, BadBytes) !in tree
  }

  // The paths to inspect: changed, and present as a blob.
  predicate Inspected(changed: seq<RawPath>, tree: seq<TreeEntry>, path: string) {
    Utf8(path) in changed && TreeEntry(true, Utf8(path)) in tree
  }

  // The metadata, the changed paths and the tree of the revision are all there.
  ghost predicate Readable(git: Git, r: string) {
    && git.metadata(r).Text?
    && git.changed(r).Some? && git.tree(r).Some?
    && Decodable(git.changed(r).value, git.tree(r).value)
  }

  ghost predicate PathSpoils(s: Setup, git: Git, r: string, path: string, detail: Detail) {
    var blob := git.blob(r, path);
    match detail
    case RuntimePath => path == FORBIDDEN
    case BlobUnreadable => s.isText(path) && blob == Failed
    case BlobNotUtf8 => s.isText(path) && blob == NotUtf8
    case CommitMarker => Marked(s, path) || (s.isText(path) && blob.Text? && Marked(s, blob.text))
    case _ => false
  }

  // One of the paths to inspect has the detail.
  ghost predicate SomePathSpoils(s: Setup, git: Git, r: string, detail: Detail)
    requires git.changed(r).Some? && git.tree(r).Some?
  {
    exists path :: Inspected(git.changed(r).value, git.tree(r).value, path) && PathSpoils(s, git, r, path, detail)
  }

  // What is found about one revision.
  ghost predicate RevisionHas(s: Setup, git: Git, r: string, detail: Detail) {
    var metadata := git.metadata(r);
    if metadata == Failed then detail == MetadataUnreadable
    else if metadata == NotUtf8 then detail == MetadataNotUtf8
    else if git.changed(r).None? || git.tree(r).None? then detail == TreeUnreadable
    else if !Decodable(git.changed(r).value, git.tree(r).value) then detail == PathNotUtf8
    else (detail == CommitMarker && Marked(s, metadata.text)) || SomePathSpoils(s, git, r, detail)
  }

  function Prefix(revision: string): string {
    if |revision| <= 12 then revision else revision[..12]
  }

  // What the inspection of one path adds, besides the flag for markers.
  ghost function PathDetails(s: Setup, git: Git, r: string, path: string): seq<Detail> {
    (if PathSpoils(s, git, r, path, RuntimePath) then [RuntimePath] else [])
    + (if PathSpoils(s, git, r, path, BlobUnreadable) then [BlobUnreadable]
       else if PathSpoils(s, git, r, path, BlobNotUtf8) then [BlobNotUtf8]
       else [])
  }

  ghost function PathsDetails(s: Setup, git: Git, r: string, paths: seq<string>): seq<Detail> {
    if paths == [] then []
    else PathsDetails(s, git, r, paths[..|paths| - 1]) + PathDetails(s, git, r, paths[|paths| - 1])
  }

  // The paths to inspect, each once, in ascending order.
  ghost function InspectedPaths(changed: seq<RawPath>, tree: seq<TreeEntry>): (paths: seq<string>)
    requires Decodable(changed, tree)
  {
    SortedOf(set p | p in Decoded(changed) && TreeEntry(true, Utf8(p)) in tree)
  }

  function Decoded(paths: seq<RawPath>): set<string> {
    set p | p in paths && p.Utf8? :: p.path
  }

  // All about one revision: one reason why it cannot be inspected, or the details of its
  // paths in ascending order and, once and last, that there is a marker.
  ghost function RevisionDetails(s: Setup, git: Git, r: string): seq<Detail> {
    if git.metadata(r) == Failed then [MetadataUnreadable]
    else if git.metadata(r) == NotUtf8 then [MetadataNotUtf8]
    else if git.changed(r).None? || git.tree(r).None? then [TreeUnreadable]
    else if !Decodable(git.changed(r).value, git.tree(r).value) then [PathNotUtf8]
    else
      PathsDetails(s, git, r, InspectedPaths(git.changed(r).value, git.tree(r).value))
      + if RevisionHas(s, git, r, CommitMarker) then [CommitMarker] else []
  }

  lemma {:induction false} PathsDetailsMembers(s: Setup, git: Git, r: string, paths: seq<string>)
    ensures forall d :: d in PathsDetails(s, git, r, paths) <==>
              d != CommitMarker && exists path :: path in paths && PathSpoils(s, git, r, path, d)
  {
    if paths != [] {
      var front, last := paths[..|paths| - 1], paths[|paths| - 1];
      PathsDetailsMembers(s, git, r, front);
      assert paths == front + [last];
      assert forall d :: d in PathDetails(s, git, r, last) <==> d != CommitMarker && PathSpoils(s, git, r, last, d);
    }
  }

  lemma {:induction false} RevisionDetailsMembers(s: Setup, git: Git, r: string)
    ensures forall d :: d in RevisionDetails(s, git, r) <==> RevisionHas(s, git, r, d)
  {
    if Readable(git, r) {
      var changed, tree := git.changed(r).value, git.tree(r).value;
      InspectedPathsMembers(changed, tree);
      PathsDetailsMembers(s, git, r, InspectedPaths(changed, tree));
    }
  }

  lemma {:induction false} InspectedPathsMembers(changed: seq<RawPath>, tree: seq<TreeEntry>)
    requires Decodable(changed, tree)
    ensures forall p :: p in InspectedPaths(changed, tree) <==> Inspected(changed, tree, p)
  {
    forall p
      ensures p in Decoded(changed) <==> Utf8(p) in changed
    {
      if p in Decoded(changed) {
        var raw :| raw in changed && raw.Utf8? && raw.path == p;
        assert raw == Utf8(p);
      }
      assert Utf8(p) in changed ==> Utf8(p).path in Decoded(changed);
    }
  }

  // The inspection of one path, with the flag for markers.
  method InspectPath(s: Setup, git: Git, r: string, path: string, before: bool)
    returns (details: seq<Detail>, marked: bool)
    ensures marked <==> before || PathSpoils(s, git, r, path, CommitMarker)
    ensures details == PathDetails(s, git, r, path)
  {
    details := if path == FORBIDDEN then [RuntimePath] else [];
    marked := before;
    if !marked {
      marked := IsMarked(s, path);
    }
    if !s.isText(path) {
      return;
    }
    match git.blob(r, path) {
      case Failed =>
        details := details + [BlobUnreadable];
      case NotUtf8 =>
        details := details + [BlobNotUtf8];
      case Text(text) =>
        if !marked {
          marked := IsMarked(s, text);
        }
    }
  }

  ghost predicate SpoiledBy(s: Setup, git: Git, r: string, paths: seq<string>, detail: Detail) {
    exists path :: path in paths && PathSpoils(s, git, r, path, detail)
  }

  // The loop over the paths of a revision.
  method InspectPaths(s: Setup, git: Git, r: string, paths: seq<string>, before: bool)
    returns (details: seq<Detail>, marked: bool)
    ensures marked <==> before || SpoiledBy(s, git, r, paths, CommitMarker)
    ensures details == PathsDetails(s, git, r, paths)
  {
    details, marked := [], before;
    for i := 0 to |paths|
      invariant marked <==> before || SpoiledBy(s, git, r, paths[..i], CommitMarker)
      invariant details == PathsDetails(s, git, r, paths[..i])
    {
      var more;
      more, marked := InspectPath(s, git, r, paths[i], marked);
      assert paths[..i + 1] == paths[..i] + [paths[i]];
      assert paths[..i + 1][..i] == paths[..i];
      details := details + more;
    }
    assert paths[..|paths|] == paths;
  }

  // sorted(changed_paths & tree_blob_paths), or None if a path cannot be decoded.
  method PathsToInspect(changed: seq<RawPath>, tree: seq<TreeEntry>) returns (paths: Option<seq<string>>)
    ensures paths.Some? <==> Decodable(changed, tree)
    ensures paths.Some? ==> paths.value == InspectedPaths(changed, tree)
    ensures paths.Some? ==> Ascending(paths.value) && forall p :: p in paths.value <==> Inspected(changed, tree, p)
  {
    if BadBytes in changed || TreeEntry(true, BadBytes) in tree {
      return None;
    }
    var changedPaths := Decoded(changed);
    var treePaths := set e | e in tree && e.blob && e.path.Utf8? :: e.path.path;
    forall p
      ensures p in changedPaths <==> Utf8(p) in changed
      ensures p in treePaths <==> TreeEntry(true, Utf8(p)) in tree
    {
      if p in changedPaths {
        var raw :| raw in changed && raw.Utf8? && raw.path == p;
        assert raw == Utf8(p);
      }
      if p in treePaths {
        var e :| e in tree && e.blob && e.path.Utf8? && e.path.path == p;
        assert e == TreeEntry(true, Utf8(p));
      }
      assert Utf8(p) in changed ==> Utf8(p).path in changedPaths;
      assert TreeEntry(true, Utf8(p)) in tree ==> TreeEntry(true, Utf8(p)).path.path in treePaths;
    }
    assert changedPaths * treePaths == set p | p in Decoded(changed) && TreeEntry(true, Utf8(p)) in tree;
    var sorted := SortedSet(changedPaths * treePaths);
    AscendingIsUnique(sorted, SortedOf(changedPaths * treePaths));
    paths := Some(sorted);
  }

  // The body of the loop over revisions.
  method ScanRevision(s: Setup, git: Git, r: string) returns (details: seq<Detail>)
    ensures details == RevisionDetails(s, git, r)
    ensures forall d :: d in details <==> RevisionHas(s, git, r, d)
  {
    RevisionDetailsMembers(s, git, r);
    var metadata := git.metadata(r);
    if metadata == Failed {
      return [MetadataUnreadable];
    }
    if metadata == NotUtf8 {
      return [MetadataNotUtf8];
    }
    var changed, tree := git.changed(r), git.tree(r);
    if changed.None? || tree.None? {
      return [TreeUnreadable];
    }
    var paths := PathsToInspect(changed.value, tree.value);
    if paths.None? {
      return [PathNotUtf8];
    }
    var marked := IsMarked(s, metadata.text);
    details, marked := InspectPaths(s, git, r, paths.value, marked);
    assert SpoiledBy(s, git, r, paths.value, CommitMarker) <==> SomePathSpoils(s, git, r, CommitMarker);
    if marked {
      details := details + [CommitMarker];
    }
  }

  ghost predicate HistoryHas(s: Setup, git: Git, f: Finding) {
    if git.revisions.None? then f == Finding(Range, RangeUnreadable)
    else exists r :: Listed(git, r) && f.where == History(Prefix(r)) && RevisionHas(s, git, r, f.detail)
  }

  function FindingsAt(where: Where, details: seq<Detail>): (findings: seq<Finding>)
    ensures forall f :: f in findings <==> f.where == where && f.detail in details
  {
    if details == [] then []
    else
      assert details == details[..|details| - 1] + [details[|details| - 1]];
      FindingsAt(where, details[..|details| - 1]) + [Finding(where, details[|details| - 1])]
  }

  // The findings about the revisions, in their order.
  ghost function HistoryFindings(s: Setup, git: Git, revisions: seq<string>): seq<Finding> {
    if revisions == [] then []
    else
      var before, r := HistoryFindings(s, git, revisions[..|revisions| - 1]), revisions[|revisions| - 1];
      if r == "" then before else before + FindingsAt(History(Prefix(r)), RevisionDetails(s, git, r))
  }

  lemma {:induction false} HistoryFindingsMembers(s: Setup, git: Git, revisions: seq<string>)
    ensures forall f :: f in HistoryFindings(s, git, revisions) <==>
              exists r :: r in revisions && r != "" && f.where == History(Prefix(r)) && RevisionHas(s, git, r, f.detail)
  {
    if revisions != [] {
      var front, last := revisions[..|revisions| - 1], revisions[|revisions| - 1];
      HistoryFindingsMembers(s, git, front);
      assert revisions == front + [last];
      RevisionDetailsMembers(s, git, last);
    }
  }

  // scan_history_range
  method ScanHistoryRange(s: Setup, git: Git) returns (findings: seq<Finding>)
    ensures findings == if git.revisions.None? then [Finding(Range, RangeUnreadable)]
                        else HistoryFindings(s, git, git.revisions.value)
    ensures forall f :: f in findings <==> HistoryHas(s, git, f)
  {
    if git.revisions.None? {
      return [Finding(Range, RangeUnreadable)];
    }
    var revisions := git.revisions.value;
    findings := [];
    for i := 0 to |revisions|
      invariant findings == HistoryFindings(s, git, revisions[..i])
    {
      assert revisions[..i + 1][..i] == revisions[..i];
      if revisions[i] != "" {
        var details := ScanRevision(s, git, revisions[i]);
        findings := findings + FindingsAt(History(Prefix(revisions[i])), details);
      }
    }
    assert revisions[..|revisions|] == revisions;
    HistoryFindingsMembers(s, git, revisions);
  }

  // ---- Completeness -----------------------------------------------------------------------

  // Everything about the path was read, and nothing is wrong with it.
  ghost predicate CleanPath(s: Setup, git: Git, r: string, path: string) {
    && path != ".gitlab-ci.yml"
    && !Marked(s, path)
    && (s.isText(path) ==> git.blob(r, path).Text? && !Marked(s, git.blob(r, path).text))
  }

  // Everything about the revision was read and decoded, and nothing is wrong with it.
  ghost predicate CleanRevision(s: Setup, git: Git, r: string) {
    && git.metadata(r).Text? && !Marked(s, git.metadata(r).text)
    && git.changed(r).Some? && BadBytes !in git.changed(r).value
    && git.tree(r).Some? && TreeEntry(true, BadBytes) !in git.tree(r).value
    && forall path :: Utf8(path) in git.changed(r).value && TreeEntry(true, Utf8(path)) in git.tree(r).value
         ==> CleanPath(s, git, r, path)
  }

  lemma {:induction false} CleanPathMeans(s: Setup, git: Git, r: string, path: string)
    ensures CleanPath(s, git, r, path) <==> forall d :: !PathSpoils(s, git, r, path, d)
  {
    if !CleanPath(s, git, r, path) {
      assert PathSpoils(s, git, r, path, RuntimePath) || PathSpoils(s, git, r, path, BlobUnreadable)
          || PathSpoils(s, git, r, path, BlobNotUtf8) || PathSpoils(s, git, r, path, CommitMarker);
    }
  }

  lemma {:induction false} CleanRevisionMeans(s: Setup, git: Git, r: string)
    ensures CleanRevision(s, git, r) <==> forall d :: !RevisionHas(s, git, r, d)
  {
    forall path {
      CleanPathMeans(s, git, r, path);
    }
    if Readable(git, r) {
      if path :| Inspected(git.changed(r).value, git.tree(r).value, path) && !CleanPath(s, git, r, path) {
        var d :| PathSpoils(s, git, r, path, d);
        assert SomePathSpoils(s, git, r, d);
        assert RevisionHas(s, git, r, d);
      } else if Marked(s, git.metadata(r).text) {
        assert RevisionHas(s, git, r, CommitMarker);
      }
    } else {
      assert RevisionHas(s, git, r, MetadataUnreadable) || RevisionHas(s, git, r, MetadataNotUtf8)
          || RevisionHas(s, git, r, TreeUnreadable) || RevisionHas(s, git, r, PathNotUtf8);
    }
  }

  // The scan fails closed: it finds nothing if and only if the range was listed and every
  // listed revision was read in full and is clean.
  lemma {:induction false} NoFindingsMeansClean(s: Setup, git: Git, findings: seq<Finding>)
    requires forall f :: f in findings <==> HistoryHas(s, git, f)
    ensures findings == [] <==> git.revisions.Some? && forall r :: Listed(git, r) ==> CleanRevision(s, git, r)
  {
    forall r {
      CleanRevisionMeans(s, git, r);
    }
    if git.revisions.None? {
      assert Finding(Range, RangeUnreadable) in findings;
    } else if r :| Listed(git, r) && !CleanRevision(s, git, r) {
      var d :| RevisionHas(s, git, r, d);
      assert HistoryHas(s, git, Finding(History(Prefix(r)), d));
    } else if findings != [] {
      assert HistoryHas(s, git, findings[0]);
    }
  }

  // A listed file is gone, not text, or was read, and neither its path nor its text is bad.
  ghost predicate CleanFile(s: Setup, repo: Repository, path: string) {
    && ForwardSlashes(path) != ".gitlab-ci.yml"
    && !Marked(s, ForwardSlashes(path))
    && (s.isText(path) && repo.read(path).Some? ==>
          repo.read(path).value.Text? && !Marked(s, repo.read(path).value.text))
  }

  lemma {:induction false} CleanFileMeans(s: Setup, repo: Repository, path: string)
    ensures CleanFile(s, repo, path) <==> FileFindings(s, repo, path) == []
  {
  }

  // The scan of the repository fails closed as well.
  lemma {:induction false} NoFindingsMeansCleanFiles(s: Setup, repo: Repository, paths: seq<string>)
    ensures AllFindings(s, repo, paths) == [] <==> forall path :: path in paths ==> CleanFile(s, repo, path)
  {
    if paths != [] {
      var front, last := paths[..|paths| - 1], paths[|paths| - 1];
      NoFindingsMeansCleanFiles(s, repo, front);
      assert paths == front + [last];
      CleanFileMeans(s, repo, last);
    }
  }

  // Every backslash becomes a slash, and nothing else changes.
  lemma {:induction false} ForwardSlashesMeans(path: string)
    ensures |ForwardSlashes(path)| == |path|
    ensures forall i :: 0 <= i < |path| ==>
              ForwardSlashes(path)[i] == if path[i] == '\\' then '/' else path[i]
  {
    if path != "" {
      ForwardSlashesMeans(path[..|path| - 1]);
    }
  }

  // Findings name a revision by its first twelve characters.
  lemma {:induction false} RevisionsAreNamed(s: Setup, git: Git, f: Finding)
    requires git.revisions.Some? && HistoryHas(s, git, f)
    ensures exists r ::
              && r in git.revisions.value && r != "" && RevisionHas(s, git, r, f.detail)
              && f.where.History? && f.where.prefix <= r && |f.where.prefix| == if |r| < 12 then |r| else 12
  {
    var r :| Listed(git, r) && f.where == History(Prefix(r)) && RevisionHas(s, git, r, f.detail);
    assert f.where.prefix <= r;
  }

  // ---- More fingerprints --------------------------------------------------------------------

  function WithMore(s: Setup, more: Config): Setup {
    s.(config := Union(s.config, more))
  }

  lemma {:induction false} MarkedStays(s: Setup, more: Config, text: string)
    requires Marked(s, text)
    ensures Marked(WithMore(s, more), text)
  {
    MarkerIdsOfUnion(s.hashing, text, s.config, more);
  }

  // Adding fingerprints of either kind loses no finding about the repository.
  lemma {:induction false} RepositoryFindingsStay(s: Setup, more: Config, repo: Repository, path: string, f: Finding)
    requires Concerns(s, repo, path, f)
    ensures Concerns(WithMore(s, more), repo, path, f)
  {
    forall text | Marked(s, text)
      ensures Marked(WithMore(s, more), text)
    {
      MarkedStays(s, more, text);
    }
  }

  // Nor about the history.
  lemma {:induction false} HistoryFindingsStay(s: Setup, more: Config, git: Git, f: Finding)
    requires HistoryHas(s, git, f)
    ensures HistoryHas(WithMore(s, more), git, f)
  {
    if git.revisions.Some? {
      var r :| Listed(git, r) && f.where == History(Prefix(r)) && RevisionHas(s, git, r, f.detail);
      RevisionFindingsStay(s, more, git, r, f.detail);
    }
  }

  lemma {:induction false} RevisionFindingsStay(s: Setup, more: Config, git: Git, r: string, detail: Detail)
    requires RevisionHas(s, git, r, detail)
    ensures RevisionHas(WithMore(s, more), git, r, detail)
  {
    forall text | Marked(s, text)
      ensures Marked(WithMore(s, more), text)
    {
      MarkedStays(s, more, text);
    }
    if Readable(git, r) && SomePathSpoils(s, git, r, detail) {
      var path :| Inspected(git.changed(r).value, git.tree(r).value, path) && PathSpoils(s, git, r, path, detail);
      assert PathSpoils(WithMore(s, more), git, r, path, detail);
    }
  }
}
