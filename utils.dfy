/**
 * `load_raw` and `dump_graphml`: the file suffix picks the reader, the file name
 * becomes the graph's name, and the GraphML target is derived from the input path.
 * Paths follow pathlib's rules for `suffix`, `stem` and `with_suffix`.
 */
module Utils {
  import opened Wrappers
  import opened Text
  import opened Graphs
  import Mtx
  import Edges

  /** A path: its directory components and its final component, `name`. */
  datatype Path = Path(parent: seq<string>, name: string)

  /** `name.rfind('.')`: the index of the last dot, or -1. */
  function RFindDot(name: string): (i: int)
    ensures -1 <= i < |name|
    ensures i >= 0 ==> name[i] == '.'
    ensures forall j :: i < j < |name| ==> name[j] != '.'
  {
    if name == [] then -1
    else if name[|name| - 1] == '.' then |name| - 1
    else RFindDot(name[..|name| - 1])
  }

  /** Where the suffix starts: the last dot, unless it opens the name or ends it. */
  function SuffixStart(name: string): Option<nat> {
    var i := RFindDot(name);
    if 0 < i < |name| - 1 then Some(i) else None
  }

  /** `PurePath.suffix`. */
  function Suffix(name: string): string {
    match SuffixStart(name)
    case Some(i) => name[i..]
    case None => ""
  }

  /** `PurePath.stem`. */
  function Stem(name: string): string {
    match SuffixStart(name)
    case Some(i) => name[..i]
    case None => name
  }

  /**
   * A name is its stem followed by its suffix; a suffix is empty or a dot followed by
   * at least one character and no other dot, and a non-empty name has a non-empty stem.
   */
  lemma StemSuffix(name: string)
    ensures Stem(name) + Suffix(name) == name
    ensures Suffix(name) == "" || (|Suffix(name)| >= 2 && Suffix(name)[0] == '.'
                                   && forall j :: 0 < j < |Suffix(name)| ==> Suffix(name)[j] != '.')
    ensures name != "" ==> Stem(name) != ""
  {
  }

  datatype PathError = EmptyName

  /** `PurePath.with_suffix(suffix)` for a valid suffix: the old suffix is replaced. */
  function WithSuffix(p: Path, suffix: string): (r: Result<Path, PathError>)
    ensures r.Failure? <==> p.name == ""
    ensures r.Success? ==> r.value.parent == p.parent
    ensures r.Success? ==> |Suffix(p.name)| <= |p.name| && r.value.name == p.name[..|p.name| - |Suffix(p.name)|] + suffix
    ensures r.Success? && Suffix(p.name) == "" ==> r.value.name == p.name + suffix
  {
    StemSuffix(p.name);
    if p.name == "" then Failure(EmptyName)
    else Success(Path(p.parent, Stem(p.name) + suffix))
  }

  const GRAPHML: string := ".graphml"

  /** `Path(path.parent / path.stem).with_suffix('.graphml')`. */
  function DumpTarget(p: Path): (r: Result<Path, PathError>)
    ensures r.Failure? <==> p.name == ""
    ensures r.Success? ==> r.value.parent == p.parent
  {
    StemSuffix(p.name);
    if p.name == "" then Failure(EmptyName)
    else WithSuffix(Path(p.parent, Stem(p.name)), GRAPHML)
  }

  /**
   * The dump target sits beside the input. When the stem has no suffix of its own,
   * its name is the stem plus `.graphml`; when it has one (`a.b.mtx`), that last
   * dotted segment of the stem is replaced too (`a.graphml`).
   */
  lemma DumpTargetName(p: Path)
    requires p.name != ""
    ensures var t := DumpTarget(p).value;
      && t.parent == p.parent
      && (Suffix(Stem(p.name)) == "" ==> t.name == Stem(p.name) + GRAPHML)
      && (Suffix(Stem(p.name)) != "" ==>
            (Stem(p.name) == Stem(Stem(p.name)) + Suffix(Stem(p.name)) && t.name == Stem(Stem(p.name)) + GRAPHML))
  {
    StemSuffix(p.name);
    StemSuffix(Stem(p.name));
  }

  const MTX_SUFFIX: string := ".mtx"
  const EDGES_SUFFIX: string := ".edges"

  /** What `load_raw` raises: an unknown suffix, or whatever the chosen reader raises. */
  datatype LoadError = UnsupportedFormat | MtxFailure(mtx: Mtx.MtxError) | EdgesFailure(edges: Edges.EdgesError)

  /** `EdgesReader.get_metadata`: the first two lines, `readline` giving "" past the end. */
  function Metadata(lines: seq<string>): (string, string) {
    (if |lines| > 0 then lines[0] else "", if |lines| > 1 then lines[1] else "")
  }

  /**
   * `load_raw(path)` over the file's `lines`: `.mtx` goes to `read_mtx` (node
   * identifiers made with `str`), `.edges` to `read_edges` with comment marker `%`,
   * whose body is read by `readEdgelist`; the result is renamed to the path's stem.
   */
  function LoadRaw(p: Path, lines: seq<string>, dec: Decoders, readEdgelist: Edges.EdgeListRequest -> Graph)
    : (r: Result<Graph, LoadError>)
    ensures r.Success? ==> r.value.name == Stem(p.name)
    ensures Suffix(p.name) != MTX_SUFFIX && Suffix(p.name) != EDGES_SUFFIX <==> r == Failure(UnsupportedFormat)
  {
    if Suffix(p.name) == MTX_SUFFIX then
      match Mtx.ReadMtx(lines, dec, IntToString)
      case Failure(e) => Failure(MtxFailure(e))
      case Success(g) => Success(g.(name := Stem(p.name)))
    else if Suffix(p.name) == EDGES_SUFFIX then
      var (header, info) := Metadata(lines);
      match Edges.Call(Edges.ReadEdgesReader("%"), header, info, dec)
      case Failure(e) => Failure(EdgesFailure(e))
      case Success(q) => Success(readEdgelist(q).(name := Stem(p.name)))
    else Failure(UnsupportedFormat)
  }

  /**
   * The suffix alone picks the reader: a `.mtx` path loads what `read_mtx` reads, an
   * `.edges` path what `read_edges` with marker `%` asks for, and any other suffix
   * fails whatever the file holds.
   */
  lemma LoadRawDispatch(p: Path, lines: seq<string>, dec: Decoders, readEdgelist: Edges.EdgeListRequest -> Graph)
    ensures Suffix(p.name) == MTX_SUFFIX ==>
      var m := Mtx.ReadMtx(lines, dec, IntToString);
      LoadRaw(p, lines, dec, readEdgelist) == if m.Success? then Success(m.value.(name := Stem(p.name))) else Failure(MtxFailure(m.error))
    ensures Suffix(p.name) == EDGES_SUFFIX ==>
      var q := Edges.Call(Edges.ReadEdgesReader("%"), Metadata(lines).0, Metadata(lines).1, dec);
      LoadRaw(p, lines, dec, readEdgelist) == if q.Success? then Success(readEdgelist(q.value).(name := Stem(p.name))) else Failure(EdgesFailure(q.error))
    ensures Suffix(p.name) != MTX_SUFFIX && Suffix(p.name) != EDGES_SUFFIX ==>
      forall lines', dec', readEdgelist' :: LoadRaw(p, lines', dec', readEdgelist') == Failure(UnsupportedFormat)
  {
  }

  /**
   * A `.mtx` load keeps the reader's directedness; an `.edges` load is directed
   * exactly for orientation `asym`, as long as `read_edgelist` builds the graph class
   * it is given.
   */
  lemma LoadRawDirectedness(p: Path, lines: seq<string>, dec: Decoders, readEdgelist: Edges.EdgeListRequest -> Graph)
    requires forall q :: readEdgelist(q).directed == q.directed
    requires LoadRaw(p, lines, dec, readEdgelist).Success?
    ensures Suffix(p.name) == MTX_SUFFIX ==>
      LoadRaw(p, lines, dec, readEdgelist).value.directed == Mtx.ReadMtx(lines, dec, IntToString).value.directed
    ensures Suffix(p.name) == EDGES_SUFFIX ==>
      Edges.ParseHeader(Edges.ReadEdgesReader("%"), Metadata(lines).0).Success? &&
      (LoadRaw(p, lines, dec, readEdgelist).value.directed <==>
        Edges.ParseHeader(Edges.ReadEdgesReader("%"), Metadata(lines).0).value.0 == Edges.ASYM)
  {
    if Suffix(p.name) == EDGES_SUFFIX {
      Edges.CallOutcome(Edges.ReadEdgesReader("%"), Metadata(lines).0, Metadata(lines).1, dec);
    }
  }
}
