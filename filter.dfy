/**
 * The event filter of the command-line tool: `make_glob_filter` and the
 * predicate that `get_filter` builds around it.  An event passes when it is
 * not about a directory, its kind is one of the four watched kinds, and its
 * path passes the include/exclude glob rules, where an exclude match always
 * wins over an include match.
 */
module Filter {
  import opened Wrappers
  import opened Glob

  /** A change notification as the file-system watcher delivers it. */
  datatype ChangeEvent = ChangeEvent(srcPath: string, eventType: string, isDirectory: bool)

  /** The kinds of change that are acted upon; any other kind is ignored. */
  const WatchedTypes: set<string> := {"modified", "created", "deleted", "moved"}

  /** `any(fnmatch.fnmatch(path, p) for p in patterns)` */
  function AnyMatch(path: string, patterns: seq<string>): (r: bool)
    ensures r <==> exists i :: 0 <= i < |patterns| && FnMatch(path, patterns[i])
  {
    if patterns == [] then false
    else FnMatch(path, patterns[0]) || AnyMatch(path, patterns[1..])
  }

  /**
   * The predicate returned by `make_glob_filter(includes, excludes)`: with
   * includes given, the path must match one of them; and it must match none
   * of the excludes.
   */
  function GlobFilter(includes: seq<string>, excludes: seq<string>, path: string): (r: bool)
    ensures r <==> (includes == [] || exists i :: 0 <= i < |includes| && FnMatch(path, includes[i]))
                   && forall j :: 0 <= j < |excludes| ==> !FnMatch(path, excludes[j])
  {
    if includes != [] && !AnyMatch(path, includes) then false
    else if AnyMatch(path, excludes) then false
    else true
  }

  /** `patterns or []`: an absent option (`None`) counts as no patterns. */
  function OrEmpty(patterns: Option<seq<string>>): seq<string> {
    match patterns
    case None => []
    case Some(ps) => ps
  }

  /** The predicate returned by `get_filter(includes, excludes)`. */
  function Accept(includes: Option<seq<string>>, excludes: Option<seq<string>>, e: ChangeEvent): (r: bool)
    ensures e.isDirectory ==> !r
    ensures e.eventType !in WatchedTypes ==> !r
    ensures !e.isDirectory && e.eventType in WatchedTypes ==>
              (r <==> GlobFilter(OrEmpty(includes), OrEmpty(excludes), e.srcPath))
  {
    if e.isDirectory then false
    else if e.eventType !in WatchedTypes then false
    else GlobFilter(OrEmpty(includes), OrEmpty(excludes), e.srcPath)
  }

  /** A path that matches an exclude pattern is rejected even when it also matches an include. */
  lemma ExcludeWins(includes: Option<seq<string>>, excludes: seq<string>, e: ChangeEvent, j: nat)
    requires j < |excludes| && FnMatch(e.srcPath, excludes[j])
    ensures !Accept(includes, Some(excludes), e)
  {
  }

  /** With include patterns given, a path that matches none of them is rejected. */
  lemma IncludeRequired(includes: seq<string>, excludes: Option<seq<string>>, e: ChangeEvent)
    requires includes != []
    requires forall i :: 0 <= i < |includes| ==> !FnMatch(e.srcPath, includes[i])
    ensures !Accept(Some(includes), excludes, e)
  {
  }

  /**
   * With no include patterns (absent or empty) and no exclude match, every
   * event of a watched kind that is not about a directory passes.
   */
  lemma NoIncludesAcceptsUnexcluded(includes: Option<seq<string>>, excludes: Option<seq<string>>, e: ChangeEvent)
    requires OrEmpty(includes) == []
    requires forall j :: 0 <= j < |OrEmpty(excludes)| ==> !FnMatch(e.srcPath, OrEmpty(excludes)[j])
    ensures Accept(includes, excludes, e) <==> !e.isDirectory && e.eventType in WatchedTypes
  {
  }

  /** Include `*.py` with exclude `*_test.py`: a test module is rejected. */
  lemma ExampleTestModuleRejected()
    ensures !Accept(Some(["*.py"]), Some(["*_test.py"]), ChangeEvent("foo_test.py", "modified", false))
  {
    var test := "_test.py";
    assert Plain(test);
    assert "*_test.py" == "*" + test;
    StarSuffix("foo_test.py", test);
    assert "foo_test.py"[3..] == test;
  }

  /** Include `*.py` with exclude `*_test.py`: a module in a sub-directory passes, as `*` runs across `/`. */
  lemma ExampleNestedModuleAccepted()
    ensures Accept(Some(["*.py"]), Some(["*_test.py"]), ChangeEvent("src/app/main.py", "created", false))
  {
    var name, py, test := "src/app/main.py", ".py", "_test.py";
    assert Plain(py) && Plain(test);
    assert "*.py" == "*" + py;
    assert "*_test.py" == "*" + test;
    StarSuffix(name, py);
    StarSuffix(name, test);
    assert name[12..] == py;
    assert name[7..][1] == 'm';
  }

  /** Include `*.py`: a Markdown file matches no include and is rejected. */
  lemma ExampleOtherFileRejected()
    ensures !Accept(Some(["*.py"]), Some(["*_test.py"]), ChangeEvent("readme.md", "modified", false))
  {
    var name, py := "readme.md", ".py";
    assert Plain(py);
    assert "*.py" == "*" + py;
    StarSuffix(name, py);
    assert name[6..][0] == '.' && name[6..][1] == 'm';
  }
}
