/**
 * The project gallery: the row of tag buttons ("all" followed by every tag
 * that some project carries) and the list of projects shown for the selected
 * tag. The selected tag, the component's one piece of state, is the
 * `filter` parameter.
 */
module Projects {
  import opened Text

  /** A project card; only the fields the gallery's logic reads. */
  datatype Project = Project(id: int, title: string, tags: seq<string>)

  /** The filter value that shows every project, and the first button. */
  const AllFilter := "all"

  /** `projects.flatMap((p) => p.tags)`. */
  function FlatTags(ps: seq<Project>): seq<string>
  {
    if ps == [] then [] else ps[0].tags + FlatTags(ps[1..])
  }

  /** Some project of `ps` carries `t`. */
  ghost predicate Carried(ps: seq<Project>, t: string)
  {
    exists p :: p in ps && t in p.tags
  }

  lemma {:induction false} FlatTagsMembers(ps: seq<Project>, t: string)
    ensures t in FlatTags(ps) <==> Carried(ps, t)
  {
    if ps != [] {
      FlatTagsMembers(ps[1..], t);
      if Carried(ps, t) {
        var p :| p in ps && t in p.tags;
        if p != ps[0] {
          assert p in ps[1..];
        }
      }
      if Carried(ps[1..], t) {
        var p :| p in ps[1..] && t in p.tags;
        assert p in ps;
      }
    }
  }

  /** Pairwise distinct elements. */
  predicate Distinct<T(==)>(s: seq<T>)
  {
    forall i, j :: 0 <= i < j < |s| ==> s[i] != s[j]
  }

  /** Elements of `r` appear in the order of their first occurrence in `s`. */
  predicate InFirstOccurrenceOrder<T(==)>(r: seq<T>, s: seq<T>)
  {
    forall i, j :: 0 <= i < j < |r| ==> IndexOf(s, r[i]) < IndexOf(s, r[j])
  }

  /**
   * `Array.from(new Set(s))`: a set keeps insertion order, so each element is
   * kept where it first occurs.
   */
  function Dedup(s: seq<string>): (r: seq<string>)
    ensures forall x :: x in r <==> x in s
    ensures Distinct(r)
    ensures InFirstOccurrenceOrder(r, s)
  {
    if s == [] then []
    else
      var init := s[..|s| - 1];
      var x := s[|s| - 1];
      var d := Dedup(init);
      assert s == init + [x];
      forall y | y in init ensures IndexOf(s, y) == IndexOf(init, y) {
        IndexOfAppend(init, [x], y);
      }
      if x in init then d
      else
        IndexOfAppend(init, [x], x);
        d + [x]
  }

  /** `allTags`: "all", then each tag of the projects once, in first-occurrence order. */
  function AllTags(ps: seq<Project>): (r: seq<string>)
    ensures |r| >= 1 && r[0] == AllFilter
    ensures forall t :: t in r[1..] <==> Carried(ps, t)
    ensures Distinct(r[1..])
    ensures InFirstOccurrenceOrder(r[1..], FlatTags(ps))
  {
    var r := [AllFilter] + Dedup(FlatTags(ps));
    assert r[1..] == Dedup(FlatTags(ps));
    forall t ensures t in r[1..] <==> Carried(ps, t) {
      FlatTagsMembers(ps, t);
    }
    r
  }

  /** `a` is `b` with some elements removed (order kept). */
  predicate IsSubsequence<T(==)>(a: seq<T>, b: seq<T>)
  {
    if a == [] then true
    else if b == [] then false
    else if a[0] == b[0] then IsSubsequence(a[1..], b[1..])
    else IsSubsequence(a, b[1..])
  }

  /** `projects.filter((p) => p.tags.includes(tag))`. */
  function Tagged(ps: seq<Project>, tag: string): (r: seq<Project>)
    ensures |r| <= |ps|
    ensures IsSubsequence(r, ps)
    ensures forall p :: multiset(r)[p] == if tag in p.tags then multiset(ps)[p] else 0
  {
    if ps == [] then []
    else
      var rest := Tagged(ps[1..], tag);
      assert ps == [ps[0]] + ps[1..];
      if tag in ps[0].tags then
        assert ([ps[0]] + rest)[1..] == rest;
        [ps[0]] + rest
      else
        assert rest == [] || rest[0] != ps[0] by {
          if rest != [] {
            assert multiset(rest)[rest[0]] > 0;
          }
        }
        rest
  }

  /** `filteredProjects`: everything for "all", otherwise the projects carrying the tag, in order. */
  function FilterProjects(ps: seq<Project>, filter: string): (r: seq<Project>)
    ensures filter == AllFilter ==> r == ps
    ensures filter != AllFilter ==> IsSubsequence(r, ps)
    ensures filter != AllFilter ==>
      forall p :: multiset(r)[p] == if filter in p.tags then multiset(ps)[p] else 0
    ensures |r| <= |ps|
  {
    if filter == AllFilter then ps else Tagged(ps, filter)
  }

  /** A filter no project carries shows nothing. */
  lemma {:induction false} UncarriedFilterShowsNothing(ps: seq<Project>, filter: string)
    requires filter != AllFilter && !Carried(ps, filter)
    ensures FilterProjects(ps, filter) == []
  {
    var r := FilterProjects(ps, filter);
    if r != [] {
      assert false;
    }
  }

  /** Every tag button other than "all" shows at least one project. */
  lemma {:induction false} TagButtonsShowSomething(ps: seq<Project>, t: string)
    requires t in AllTags(ps) && t != AllFilter
    ensures FilterProjects(ps, t) != []
  {
    var tags := AllTags(ps);
    var k :| 0 <= k < |tags| && tags[k] == t;
    assert tags[1..][k - 1] == t;
    var p :| p in ps && t in p.tags;
    assert multiset(FilterProjects(ps, t))[p] == multiset(ps)[p] > 0;
  }
}
