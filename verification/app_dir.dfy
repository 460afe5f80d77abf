/**
 * How an Allegro application finds its top-level directory
 * (`AllegroApp::findApplicationDir`): an explicit `ALLEGRO_APP_DIR` wins;
 * otherwise the search starts at the working directory, with backslashes
 * turned into slashes, and climbs one path component at a time until a
 * directory holding `config/allegro.yml` is met.
 *
 * The filesystem is the set `existing` of paths for which `file_exists`
 * answers true; `getenv` and `getcwd` answers are parameters.
 */
module AppDir {
  import opened Php

  /** What must exist below a directory for it to be an application root. */
  const MARKER := "/config/allegro.yml"

  function MarkerPath(dir: string): string
  {
    dir + MARKER
  }

  predicate HasMarker(dir: string, existing: set<string>)
  {
    MarkerPath(dir) in existing
  }

  /** The working directory as the search sees it: every `\` made `/`. */
  function Normalize(cwd: string): (r: string)
    ensures |r| == |cwd| && '\\' !in r
  {
    Strtr(cwd, '\\', '/')
  }

  /** `p` is `d` itself, or `d` cut just before one of its slashes. */
  predicate IsBoundaryPrefix(p: string, d: string)
  {
    p == d || (|p| < |d| && d[..|p|] == p && d[|p|] == '/')
  }

  /**
   * The directories the search may test starting from `d`: the
   * slash-boundary prefixes that PHP considers true (so never the empty
   * prefix standing for the filesystem root, and never "0").
   */
  predicate IsCandidate(p: string, d: string)
  {
    Truthy(p) && IsBoundaryPrefix(p, d)
  }

  /**
   * The upward walk as a function: test `dir`, and on a miss go on with
   * `dir` cut at its last slash; stop when `dir` is false in PHP's sense or
   * has no slash left.
   */
  function Search(dir: string, existing: set<string>): (r: Option<string>)
    ensures r.Some? ==> IsCandidate(r.value, dir) && HasMarker(r.value, existing)
    ensures Truthy(dir) && HasMarker(dir, existing) ==> r == Some(dir)
    decreases |dir|
  {
    if !Truthy(dir) then None
    else if HasMarker(dir, existing) then Some(dir)
    else
      match Strrpos(dir, '/')
      case None => None
      case Some(k) =>
        var r := Search(dir[..k], existing);
        if r.Some? then CandidateOfChild(dir, r.value); r else r
  }

  /** The directories whose marker the walk probes, in the order it probes them. */
  function Probed(dir: string, existing: set<string>): seq<string>
    decreases |dir|
  {
    if !Truthy(dir) then []
    else if HasMarker(dir, existing) then [dir]
    else
      match Strrpos(dir, '/')
      case None => [dir]
      case Some(k) => [dir] + Probed(dir[..k], existing)
  }

  /** The answer `findApplicationDir` computes when it does not throw. */
  function Locate(appDirEnv: Option<string>, cwd: string, existing: set<string>): (r: Option<string>)
    ensures TruthyOpt(appDirEnv) ==> r == appDirEnv
    ensures r.Some? ==> Truthy(r.value)
    ensures !TruthyOpt(appDirEnv) && r.Some? ==>
      IsCandidate(r.value, Normalize(cwd)) && HasMarker(r.value, existing)
  {
    if TruthyOpt(appDirEnv) then appDirEnv else Search(Normalize(cwd), existing)
  }

  /**
   * `findApplicationDir` as the loop it is. None stands for the
   * "app dir not found" RuntimeException thrown after the loop; `probed`
   * records each directory whose marker `file_exists` is asked about.
   */
  method FindApplicationDir(appDirEnv: Option<string>, cwd: string, existing: set<string>)
    returns (r: Option<string>, ghost probed: seq<string>)
    ensures r == Locate(appDirEnv, cwd, existing)
    ensures TruthyOpt(appDirEnv) ==> r == appDirEnv && probed == []
    ensures !TruthyOpt(appDirEnv) ==> probed == Probed(Normalize(cwd), existing)
  {
    probed := [];
    if TruthyOpt(appDirEnv) {
      return appDirEnv, probed;
    }
    var dir := Strtr(cwd, '\\', '/');
    while Truthy(dir)
      invariant Search(dir, existing) == Search(Normalize(cwd), existing)
      invariant probed + Probed(dir, existing) == Probed(Normalize(cwd), existing)
      decreases |dir|
    {
      probed := probed + [dir];
      if MarkerPath(dir) in existing {
        return Some(dir), probed;
      }
      var slash := Strrpos(dir, '/');
      if slash.None? {
        break;
      }
      dir := dir[..slash.value];
    }
    return None, probed;
  }

  /** A candidate other than `d` itself is also a candidate of `d` cut at its last slash. */
  lemma CandidateOfParent(d: string, p: string)
    requires IsCandidate(p, d) && p != d
    ensures Strrpos(d, '/').Some?
    ensures IsCandidate(p, d[..Strrpos(d, '/').value])
  {
  }

  /** Conversely, a candidate of the cut directory is a candidate of `d`. */
  lemma CandidateOfChild(d: string, p: string)
    requires Strrpos(d, '/').Some?
    requires IsCandidate(p, d[..Strrpos(d, '/').value])
    ensures IsCandidate(p, d)
  {
  }

  /**
   * The walk finds the nearest marked ancestor: its answer is a marked
   * candidate and every longer candidate is unmarked; it gives up only
   * when no candidate at all is marked.
   */
  lemma {:induction false} SearchSound(d: string, existing: set<string>)
    ensures Search(d, existing).Some? ==>
      var r := Search(d, existing).value;
      IsCandidate(r, d) && HasMarker(r, existing) &&
      forall p :: IsCandidate(p, d) && |p| > |r| ==> !HasMarker(p, existing)
    ensures Search(d, existing).None? ==>
      forall p :: IsCandidate(p, d) ==> !HasMarker(p, existing)
    decreases |d|
  {
    if Truthy(d) && !HasMarker(d, existing) {
      var s := Strrpos(d, '/');
      if s.None? {
        forall p | IsCandidate(p, d) ensures !HasMarker(p, existing) {
          if p != d {
            CandidateOfParent(d, p);
          }
        }
      } else {
        var k := s.value;
        SearchSound(d[..k], existing);
        assert Search(d, existing) == Search(d[..k], existing);
        if Search(d, existing).Some? {
          CandidateOfChild(d, Search(d, existing).value);
        }
        forall p | IsCandidate(p, d) && p != d ensures IsCandidate(p, d[..k]) {
          CandidateOfParent(d, p);
        }
      }
    }
  }

  /**
   * The probes climb: each probed directory is a candidate, and each is
   * strictly shorter than the one before, so no directory is probed twice.
   */
  lemma {:induction false} ProbedClimbs(d: string, existing: set<string>)
    ensures forall i :: 0 <= i < |Probed(d, existing)| ==> IsCandidate(Probed(d, existing)[i], d)
    ensures forall i, j :: 0 <= i < j < |Probed(d, existing)| ==>
      |Probed(d, existing)[i]| > |Probed(d, existing)[j]|
    decreases |d|
  {
    if Truthy(d) && !HasMarker(d, existing) && Strrpos(d, '/').Some? {
      var k := Strrpos(d, '/').value;
      var rest := Probed(d[..k], existing);
      ProbedClimbs(d[..k], existing);
      assert Probed(d, existing) == [d] + rest;
      forall i | 0 <= i < |rest| ensures IsCandidate(rest[i], d) && |rest[i]| < |d| {
        CandidateOfChild(d, rest[i]);
      }
    }
  }

  /**
   * Every probe but the last finds no marker, and the walk answers the last
   * probed directory exactly when that one has it.
   */
  lemma {:induction false} ProbedStopsAtMarker(d: string, existing: set<string>)
    ensures forall i :: 0 <= i < |Probed(d, existing)| - 1 ==> !HasMarker(Probed(d, existing)[i], existing)
    ensures Search(d, existing).Some? <==>
      |Probed(d, existing)| > 0 && HasMarker(Probed(d, existing)[|Probed(d, existing)| - 1], existing)
    ensures Search(d, existing).Some? ==>
      Search(d, existing).value == Probed(d, existing)[|Probed(d, existing)| - 1]
    decreases |d|
  {
    if Truthy(d) && !HasMarker(d, existing) && Strrpos(d, '/').Some? {
      var k := Strrpos(d, '/').value;
      ProbedStopsAtMarker(d[..k], existing);
      assert Probed(d, existing) == [d] + Probed(d[..k], existing);
    }
  }

  /**
   * Without an override, the located directory is a candidate of the
   * normalised working directory holding the marker and no longer candidate
   * holds one; nothing is located exactly when no candidate holds it.
   */
  lemma LocateFindsNearestAncestor(appDirEnv: Option<string>, cwd: string, existing: set<string>)
    requires !TruthyOpt(appDirEnv)
    ensures Locate(appDirEnv, cwd, existing).Some? ==>
      var r := Locate(appDirEnv, cwd, existing).value;
      IsCandidate(r, Normalize(cwd)) && HasMarker(r, existing) &&
      forall p :: IsCandidate(p, Normalize(cwd)) && |p| > |r| ==> !HasMarker(p, existing)
    ensures Locate(appDirEnv, cwd, existing).None? <==>
      forall p :: IsCandidate(p, Normalize(cwd)) ==> !HasMarker(p, existing)
  {
    SearchSound(Normalize(cwd), existing);
  }

  /**
   * Started anywhere below a marked root, with nothing marked in between,
   * the walk returns exactly that root.
   */
  lemma SearchFromDescendant(root: string, rel: string, existing: set<string>)
    requires Truthy(root) && HasMarker(root, existing)
    requires forall p :: IsCandidate(p, root + "/" + rel) && |p| > |root| ==> !HasMarker(p, existing)
    ensures Search(root + "/" + rel, existing) == Some(root)
  {
    var d := root + "/" + rel;
    assert d[..|root|] == root && d[|root|] == '/';
    assert IsCandidate(root, d);
    SearchSound(d, existing);
    var x := Search(d, existing).value;
    assert |x| == |root|;
    assert x == d[..|x|];
  }
}
