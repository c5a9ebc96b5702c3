/** The page's workspace bookkeeping in the `HTML_CONTENT` string of server.py: the
    recent and favourite project lists, the folder name shown for a project path, the
    grid layout chosen for a number of terminals, and the limits `addAgent` and
    `removeAgent` put on a project's terminals. */
module Workspace {
  import opened Common

  // ---------------------------------------------------------------- project lists

  /** `addToRecent` keeps at most ten recent projects. */
  const MaxRecent: nat := 10

  /** The recent list after `addToRecent(path)`: the path moved to the front, cut to
      `MaxRecent` entries. The path comes first and only once, and the list never grows
      past ten entries. */
  function Recent(list: seq<string>, path: string): (r: seq<string>)
    ensures 1 <= |r| <= MaxRecent && r[0] == path && path !in r[1..]
  {
    var w := Without(list, path);
    var r := Take([path] + w, MaxRecent);
    assert r == ([path] + w)[..|r|];
    assert r[1..] == w[..|r| - 1];
    r
  }

  /** The other entries keep their relative order. */
  lemma RecentKeepsOrder(list: seq<string>, path: string)
    ensures var r := Recent(list, path);
      |r| >= 1 && IsSubsequence(r[1..], list)
  {
    var w := Without(list, path);
    var r := Recent(list, path);
    assert r == ([path] + w)[..|r|];
    assert r[1..] == w[..|r| - 1];
    WithoutIsSubsequence(list, path);
    PrefixIsSubsequence(w, list, |r| - 1);
  }

  /** No other entry is lost unless it is pushed past the tenth place. */
  lemma RecentKeepsOthers(list: seq<string>, path: string)
    ensures forall x :: x in list && x != path && |Without(list, path)| < MaxRecent ==>
      x in Recent(list, path)
  {
    var w := Without(list, path);
    forall x | x in list && x != path && |w| < MaxRecent
      ensures x in Recent(list, path)
    {
      var i :| 0 <= i < |list| && list[i] == x;
      assert x in w;
      assert Recent(list, path) == [path] + w;
    }
  }

  /** A list without duplicates stays without duplicates. */
  lemma RecentDistinct(list: seq<string>, path: string)
    requires NoDuplicates(list)
    ensures NoDuplicates(Recent(list, path))
  {
    var w := Without(list, path);
    var r := Recent(list, path);
    assert r == ([path] + w)[..|r|];
    WithoutKeepsDistinct(list, path);
    forall i, j | 0 <= i < j < |r| ensures r[i] != r[j] {
      if i > 0 {
        assert r[i] == w[i - 1] && r[j] == w[j - 1];
      } else {
        assert r[j] == w[j - 1];
      }
    }
  }

  /** The favourites after `toggleFavorite(path)`: the first occurrence taken out when
      the path is there, the path appended otherwise. */
  function Toggled(favorites: seq<string>, path: string): seq<string> {
    if path in favorites then RemoveFirst(favorites, path) else favorites + [path]
  }

  /** On a list without duplicates `toggleFavorite` flips the membership of the path,
      leaves every other path where it was, and keeps the list free of duplicates. */
  lemma ToggleFlips(favorites: seq<string>, path: string)
    requires NoDuplicates(favorites)
    ensures var r := Toggled(favorites, path);
      && (path in r <==> path !in favorites)
      && (forall q :: q != path ==> (q in r <==> q in favorites))
      && NoDuplicates(r)
  {
    if path in favorites {
      var k := IndexOf(favorites, path).value;
      assert Toggled(favorites, path) == favorites[..k] + favorites[k + 1..];
      SpliceMembers(favorites, k);
      SpliceDistinct(favorites, k);
    } else {
      assert Toggled(favorites, path) == favorites + [path];
    }
  }

  /** Taking out position `k` of a list without duplicates takes out exactly its element. */
  lemma SpliceMembers<T>(s: seq<T>, k: nat)
    requires NoDuplicates(s) && k < |s|
    ensures forall q :: q in s[..k] + s[k + 1..] <==> q in s && q != s[k]
  {
    var r := s[..k] + s[k + 1..];
    forall q ensures q in r <==> q in s && q != s[k] {
      if q in r {
        var i :| 0 <= i < |r| && r[i] == q;
        if i < k { assert s[i] == q; } else { assert s[i + 1] == q; }
      }
      if q in s && q != s[k] {
        var i :| 0 <= i < |s| && s[i] == q;
        if i < k { assert r[i] == q; } else { assert r[i - 1] == q; }
      }
    }
  }

  lemma SpliceDistinct<T>(s: seq<T>, k: nat)
    requires NoDuplicates(s) && k < |s|
    ensures NoDuplicates(s[..k] + s[k + 1..])
  {
    var r := s[..k] + s[k + 1..];
    forall i, j | 0 <= i < j < |r| ensures r[i] != r[j] {
      var i' := if i < k then i else i + 1;
      var j' := if j < k then j else j + 1;
      assert r[i] == s[i'] && r[j] == s[j'];
    }
  }

  /** Toggling a path that is not a favourite twice gives back the same list. */
  lemma ToggleTwice(favorites: seq<string>, path: string)
    requires path !in favorites
    ensures Toggled(Toggled(favorites, path), path) == favorites
  {
    var once := favorites + [path];
    assert path in once;
    var k := IndexOf(once, path).value;
    assert k == |favorites|;
    assert once[..k] == favorites;
  }

  /** The two project lists `loadProjects` restores and `saveProjects` stores. */
  class ProjectLists {
    var favorites: seq<string>
    var recent: seq<string>

    constructor(favorites: seq<string>, recent: seq<string>)
      ensures this.favorites == favorites && this.recent == recent
    {
      this.favorites := favorites;
      this.recent := recent;
    }

    predicate IsFavorite(path: string)
      reads this
    {
      path in favorites
    }

    /** `addToRecent`: an empty path (a falsy value) changes nothing. */
    method AddToRecent(path: string)
      modifies this
      ensures path == "" ==> recent == old(recent)
      ensures path != "" ==> recent == Recent(old(recent), path)
      ensures favorites == old(favorites)
    {
      if path == "" {
        return;
      }
      recent := Without(recent, path);
      recent := [path] + recent;
      if |recent| > MaxRecent {
        recent := recent[..MaxRecent];
      }
    }

    /** `toggleFavorite`; the result says whether the path was added. */
    method ToggleFavorite(path: string) returns (added: bool)
      modifies this
      ensures favorites == Toggled(old(favorites), path)
      ensures added <==> path !in old(favorites)
      ensures recent == old(recent)
    {
      var idx := IndexOf(favorites, path);
      if idx.Some? {
        favorites := favorites[..idx.value] + favorites[idx.value + 1..];
        added := false;
      } else {
        favorites := favorites + [path];
        added := true;
      }
    }

    /** `removeFromRecent`: every occurrence of the path is filtered out. */
    method RemoveFromRecent(path: string)
      modifies this
      ensures recent == Without(old(recent), path)
      ensures favorites == old(favorites)
    {
      recent := Without(recent, path);
    }
  }

  // ---------------------------------------------------------------- project name

  /** The character class `[\\/]` the path is split on. */
  predicate IsPathSeparator(c: char) {
    c == '/' || c == '\\'
  }

  predicate NoSeparator(s: string) {
    forall i :: 0 <= i < |s| ==> !IsPathSeparator(s[i])
  }

  function LastSeparator(s: string): (r: Option<nat>)
    ensures r.None? ==> NoSeparator(s)
    ensures r.Some? ==> r.value < |s| && IsPathSeparator(s[r.value]) && NoSeparator(s[r.value + 1..])
  {
    if s == [] then None
    else if IsPathSeparator(s[|s| - 1]) then Some(|s| - 1)
    else
      var r := LastSeparator(s[..|s| - 1]);
      if r.Some? then assert s[r.value + 1..] == s[..|s| - 1][r.value + 1..] + [s[|s| - 1]]; r
      else r
  }

  /** `path.split(/[\\/]/)`: the pieces between separators, empty ones included. */
  function Segments(s: string): seq<string>
    decreases |s|
  {
    match LastSeparator(s)
    case None => [s]
    case Some(i) => Segments(s[..i]) + [s[i + 1..]]
  }

  /** `.filter(Boolean)`: the non-empty pieces, in order. */
  function NonEmptyPieces(pieces: seq<string>): seq<string> {
    if pieces == [] then []
    else
      var last := pieces[|pieces| - 1];
      NonEmptyPieces(pieces[..|pieces| - 1]) + (if last == "" then [] else [last])
  }

  /** `getProjectName`: the last non-empty piece, or the path itself when there is none.
      That is the last folder of the path, and the path itself exactly when it is made of
      separators only (the empty path included). */
  function ProjectName(path: string): (r: string)
    ensures TrimEnd(path) != [] ==> IsLastFolder(path, r)
    ensures TrimEnd(path) == [] ==> r == path
  {
    LastPiece(path);
    LastPieceOr(NonEmptyPieces(Segments(path)), path)
  }

  /** The last of the pieces, or `fallback` when there is none. */
  function LastPieceOr(pieces: seq<string>, fallback: string): (r: string)
    ensures pieces == [] ==> r == fallback
    ensures pieces != [] ==> r == pieces[|pieces| - 1]
  {
    if pieces == [] then fallback else pieces[|pieces| - 1]
  }

  /** The path without its trailing separators. */
  function TrimEnd(s: string): (r: string)
    ensures |r| <= |s| && r == s[..|r|]
    ensures forall i :: |r| <= i < |s| ==> IsPathSeparator(s[i])
    ensures r == [] || !IsPathSeparator(r[|r| - 1])
  {
    if s == [] then []
    else if IsPathSeparator(s[|s| - 1]) then TrimEnd(s[..|s| - 1])
    else s
  }

  /** The last folder of a path: the longest separator-free end of the path once
      trailing separators are dropped. */
  predicate IsLastFolder(s: string, r: string) {
    var t := TrimEnd(s);
    0 < |r| <= |t| && r == t[|t| - |r|..] && NoSeparator(r)
    && (|r| == |t| || IsPathSeparator(t[|t| - |r| - 1]))
  }

  /** The non-empty pieces of `s` are empty exactly for a path of separators, and the
      last of them is the last folder. */
  predicate LastPieceIsFolder(s: string) {
    var pieces := NonEmptyPieces(Segments(s));
    && (pieces == [] <==> TrimEnd(s) == [])
    && (pieces != [] ==> IsLastFolder(s, pieces[|pieces| - 1]))
  }

  lemma {:induction false} LastPiece(s: string)
    ensures LastPieceIsFolder(s)
    decreases |s|
  {
    match LastSeparator(s)
    case None =>
      PiecesWithoutSeparator(s);
    case Some(i) =>
      if i == |s| - 1 {
        LastPiece(s[..i]);
        PiecesOfTrailingSeparator(s);
      } else {
        PiecesAfterLastSeparator(s, i);
      }
  }

  /** `.filter(Boolean)` of one more piece. */
  lemma PiecesSnoc(head: seq<string>, tail: string)
    ensures NonEmptyPieces(head + [tail]) == NonEmptyPieces(head) + (if tail == "" then [] else [tail])
  {
    assert (head + [tail])[..|head|] == head;
  }

  lemma PiecesWithoutSeparator(s: string)
    requires LastSeparator(s).None?
    ensures LastPieceIsFolder(s)
  {
    assert Segments(s) == [s];
    PiecesSnoc([], s);
    assert s == [] || TrimEnd(s) == s;
  }

  lemma PiecesOfTrailingSeparator(s: string)
    requires |s| > 0 && IsPathSeparator(s[|s| - 1])
    requires LastPieceIsFolder(s[..|s| - 1])
    ensures LastPieceIsFolder(s)
  {
    assert TrimEnd(s) == TrimEnd(s[..|s| - 1]);
    assert LastSeparator(s) == Some(|s| - 1);
    assert Segments(s) == Segments(s[..|s| - 1]) + [""];
    PiecesSnoc(Segments(s[..|s| - 1]), "");
  }

  lemma PiecesAfterLastSeparator(s: string, i: nat)
    requires LastSeparator(s) == Some(i) && i < |s| - 1
    ensures LastPieceIsFolder(s)
  {
    var tail := s[i + 1..];
    assert Segments(s) == Segments(s[..i]) + [tail];
    PiecesSnoc(Segments(s[..i]), tail);
    assert !IsPathSeparator(s[|s| - 1]) by {
      assert s[|s| - 1] == tail[|tail| - 1];
    }
    assert TrimEnd(s) == s;
    assert s[|s| - |tail|..] == tail;
  }

  // ---------------------------------------------------------------- terminals

  /** `addAgent` refuses a fifth terminal in a project. */
  const MaxTerminals: nat := 4

  /** The grid sizes `autoUpdateLayout` picks from. */
  const Layouts: seq<nat> := [1, 2, 4]

  /** The layout `autoUpdateLayout` picks for `n` terminals: for one to four terminals,
      the smallest grid with a cell for each of them. */
  function LayoutFor(n: nat): (cols: nat)
    ensures cols in Layouts
    ensures 1 <= n <= MaxTerminals ==> n <= cols
    ensures 1 <= n <= MaxTerminals ==> forall c :: c in Layouts && n <= c ==> cols <= c
  {
    if n == 1 then 1 else if n == 2 then 2 else 4
  }

  /** One terminal pane of a project: its id and its agent type. */
  datatype Tile = Tile(id: string, agentType: string)

  /** The agent types of the page's `AGENT_CONFIG`. */
  predicate IsPageAgentType(t: string) {
    t in ["claude", "gemini", "codex", "opencode", "shell"]
  }

  /** `AGENT_CONFIG[type].multiInstance`: Gemini and Codex run once per project. */
  predicate MultiInstance(t: string) {
    t != "gemini" && t != "codex"
  }

  /** `terminals.find(t => t.type === type)` finds a terminal. */
  predicate HasType(tiles: seq<Tile>, t: string) {
    exists i :: 0 <= i < |tiles| && tiles[i].agentType == t
  }

  /** The limits `addAgent` keeps: at most four terminals, and a single-instance agent
      at most once. */
  predicate WithinLimits(tiles: seq<Tile>) {
    && |tiles| <= MaxTerminals
    && forall i, j :: 0 <= i < j < |tiles| && tiles[i].agentType == tiles[j].agentType ==>
         MultiInstance(tiles[i].agentType)
  }

  datatype AddOutcome = NoFolder | TooMany | AlreadyRunning | Added

  /** The checks of `addAgent` on a project that has a folder, in their order. */
  function AddDecision(tiles: seq<Tile>, agentType: string): AddOutcome {
    if |tiles| >= MaxTerminals then TooMany
    else if !MultiInstance(agentType) && HasType(tiles, agentType) then AlreadyRunning
    else Added
  }

  /** A terminal `addAgent` lets in keeps the project within its limits, and one it
      turns away would have broken them. */
  lemma AddingKeepsLimits(tiles: seq<Tile>, agentType: string, id: string)
    requires WithinLimits(tiles)
    ensures AddDecision(tiles, agentType) == Added <==> WithinLimits(tiles + [Tile(id, agentType)])
  {
    var grown := tiles + [Tile(id, agentType)];
    if AddDecision(tiles, agentType) == Added {
      forall i, j | 0 <= i < j < |grown| && grown[i].agentType == grown[j].agentType
        ensures MultiInstance(grown[i].agentType)
      {
        if j == |tiles| {
          assert tiles[i].agentType == agentType;
        }
      }
    } else if |tiles| < MaxTerminals {
      var i :| 0 <= i < |tiles| && tiles[i].agentType == agentType;
      assert grown[i].agentType == grown[|tiles|].agentType;
    }
  }

  /** `terminals.findIndex(t => t.id === id)`. */
  function FindTile(tiles: seq<Tile>, id: string): (r: Option<nat>)
    ensures r.None? ==> forall i :: 0 <= i < |tiles| ==> tiles[i].id != id
    ensures r.Some? ==> r.value < |tiles| && tiles[r.value].id == id
    ensures r.Some? ==> forall i :: 0 <= i < r.value ==> tiles[i].id != id
  {
    if tiles == [] then None
    else if tiles[0].id == id then Some(0)
    else
      var r := FindTile(tiles[1..], id);
      if r.Some? then Some(r.value + 1) else None
  }

  /** `terminals.splice(k, 1)`. */
  function RemoveAt(tiles: seq<Tile>, k: nat): seq<Tile>
    requires k < |tiles|
  {
    tiles[..k] + tiles[k + 1..]
  }

  /** Taking a terminal out keeps the limits, and the others stay in their order. */
  lemma RemovingKeepsLimits(tiles: seq<Tile>, k: nat)
    requires WithinLimits(tiles) && k < |tiles|
    ensures WithinLimits(RemoveAt(tiles, k))
    ensures |RemoveAt(tiles, k)| == |tiles| - 1
    ensures forall i :: 0 <= i < |tiles| - 1 ==>
      RemoveAt(tiles, k)[i] == (if i < k then tiles[i] else tiles[i + 1])
  {
    var r := RemoveAt(tiles, k);
    forall i, j | 0 <= i < j < |r| && r[i].agentType == r[j].agentType
      ensures MultiInstance(r[i].agentType)
    {
      var i' := if i < k then i else i + 1;
      var j' := if j < k then j else j + 1;
      assert r[i] == tiles[i'] && r[j] == tiles[j'];
    }
  }

  /** One open project: its folder, its terminals and its grid. */
  class Project {
    const path: string
    var terminals: seq<Tile>
    var layoutCols: nat

    constructor(path: string, terminals: seq<Tile>, layoutCols: nat)
      ensures this.path == path && this.terminals == terminals && this.layoutCols == layoutCols
    {
      this.path := path;
      this.terminals := terminals;
      this.layoutCols := layoutCols;
    }

    predicate Valid()
      reads this
    {
      WithinLimits(terminals)
    }

    /** `autoUpdateLayout` on this project. */
    method AutoUpdateLayout()
      modifies this
      ensures layoutCols == LayoutFor(|terminals|) && terminals == old(terminals)
    {
      layoutCols := LayoutFor(|terminals|);
    }
  }

  /** `addAgent` on the active project (`null` when there is none) with an agent type
      from the page's selector; `id` is the new terminal's generated id. */
  method AddAgent(project: Project?, agentType: string, id: string) returns (outcome: AddOutcome)
    requires IsPageAgentType(agentType)
    modifies project
    ensures project == null || project.path == "" ==> outcome == NoFolder
    ensures project != null && project.path != "" ==> outcome == AddDecision(old(project.terminals), agentType)
    ensures project != null && outcome == Added ==>
      project.terminals == old(project.terminals) + [Tile(id, agentType)]
      && project.layoutCols == LayoutFor(|project.terminals|)
    ensures project != null && outcome != Added ==> unchanged(project)
    ensures project != null && old(project.Valid()) ==> project.Valid()
  {
    if project == null || project.path == "" {
      return NoFolder;
    }
    outcome := AddDecision(project.terminals, agentType);
    if outcome != Added {
      return;
    }
    if project.Valid() {
      AddingKeepsLimits(project.terminals, agentType, id);
    }
    project.terminals := project.terminals + [Tile(id, agentType)];
    project.AutoUpdateLayout();
  }

  /** `removeAgent` on the active project: the last terminal is never removed, an
      unknown id changes nothing, otherwise the terminal is taken out (and returned, to
      be disposed of) and the layout follows the new count. */
  method RemoveAgent(project: Project?, terminalId: string) returns (removed: Option<Tile>)
    modifies project
    ensures project == null ==> removed.None?
    ensures project != null ==>
      (removed.Some? <==> |old(project.terminals)| > 1 && FindTile(old(project.terminals), terminalId).Some?)
    ensures project != null && removed.Some? ==>
      var k := FindTile(old(project.terminals), terminalId).value;
      && removed.value == old(project.terminals)[k]
      && project.terminals == RemoveAt(old(project.terminals), k)
      && project.layoutCols == LayoutFor(|project.terminals|)
    ensures project != null && removed.None? ==> unchanged(project)
    ensures project != null && |old(project.terminals)| >= 1 ==> |project.terminals| >= 1
    ensures project != null && old(project.Valid()) ==> project.Valid()
  {
    if project == null || |project.terminals| <= 1 {
      return None;
    }
    var idx := FindTile(project.terminals, terminalId);
    if idx.None? {
      return None;
    }
    removed := Some(project.terminals[idx.value]);
    if project.Valid() {
      RemovingKeepsLimits(project.terminals, idx.value);
    }
    project.terminals := RemoveAt(project.terminals, idx.value);
    project.AutoUpdateLayout();
  }
}
