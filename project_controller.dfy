/**
 * The project handlers (src/controllers/projectController.js): validating a new project,
 * deriving its id from its name, counting its flats into the project record and storing
 * the flats under that id; and the presence check in front of listing a project's flats.
 */
module ProjectController {
  import opened Wrappers
  import opened Records
  import opened Text
  import opened Db
  import opened ProjectRepo
  import opened ProjectFlatsRepo

  /** `name.toLowerCase().replace(/\s+/g, "-")` */
  function Slug(name: string): (slug: string)
    ensures |slug| <= |name|
    ensures forall i :: 0 <= i < |slug| ==> !IsWhitespace(slug[i]) && !('A' <= slug[i] <= 'Z')
  {
    var lower := ToLower(name);
    SlugChars(lower);
    assert forall c :: c in lower ==> !('A' <= c <= 'Z');
    var slug := DashWhitespaceRuns(lower);
    assert forall i :: 0 <= i < |slug| ==> slug[i] in slug;
    slug
  }

  /** Every character of the dashed text is a dash or a character of the original. */
  lemma {:induction false} SlugChars(s: string)
    ensures forall c :: c in DashWhitespaceRuns(s) ==> c == '-' || c in s
    decreases |s|
  {
    if s != [] {
      if IsWhitespace(s[0]) {
        var rest := DropWhitespace(s);
        SlugChars(rest);
        assert forall c :: c in rest ==> c in s;
      } else {
        SlugChars(s[1..]);
        assert forall c :: c in s[1..] ==> c in s;
      }
    }
  }

  /** A name with no whitespace is only lower-cased. */
  lemma SlugOfOneWord(name: string)
    requires forall i :: 0 <= i < |name| ==> !IsWhitespace(name[i])
    ensures Slug(name) == ToLower(name)
  {
    var lower := ToLower(name);
    forall i | 0 <= i < |lower|
      ensures !IsWhitespace(lower[i])
    {
      assert lower[i] == LowerChar(name[i]);
    }
  }

  /**
   * The project id: the slug, a dash, and the first six characters of a fresh UUID (given
   * here as a parameter).
   */
  function ProjectIdFor(name: string, uuid: string): (id: string)
    ensures |id| == |Slug(name)| + 1 + (if |uuid| < 6 then |uuid| else 6)
    ensures id[..|Slug(name)|] == Slug(name) && id[|Slug(name)|] == '-'
    ensures id[|Slug(name)| + 1..] <= uuid
  {
    Slug(name) + "-" + Take(uuid, 6)
  }

  /** A UUID has no whitespace, so neither does a project id made from it. */
  lemma ProjectIdHasNoWhitespace(name: string, uuid: string)
    requires forall i :: 0 <= i < |uuid| ==> !IsWhitespace(uuid[i])
    ensures forall i :: 0 <= i < |ProjectIdFor(name, uuid)| ==> !IsWhitespace(ProjectIdFor(name, uuid)[i])
  {
    var id := ProjectIdFor(name, uuid);
    var n := |Slug(name)|;
    forall i | 0 <= i < |id|
      ensures !IsWhitespace(id[i])
    {
      if i < n {
        assert id[i] == id[..n][i] == Slug(name)[i];
      } else if i > n {
        assert id[i] == id[n + 1..][i - n - 1] == uuid[i - n - 1];
      }
    }
  }

  /** A '#' in the project's name stays in its id. */
  lemma ProjectIdKeepsHash(uuid: string)
    ensures '#' in ProjectIdFor("q#s", uuid)
  {
    var id := ProjectIdFor("q#s", uuid);
    assert Slug("q#s") == "q#s" by {
      SlugOfOneWord("q#s");
      assert ToLower("q#s") == "q#s";
    }
    assert id[1] == '#';
  }

  /** Every key a run of puts adds is the key of one of the puts. */
  lemma {:induction false} PutAllNewKeys(m: map<FlatKey, Flat>, fs: seq<Flat>, k: FlatKey)
    requires k in PutAll(m, fs) && k !in m
    ensures exists i :: 0 <= i < |fs| && fs[i].key == k
  {
    if fs != [] && fs[|fs| - 1].key != k {
      var front := fs[..|fs| - 1];
      PutAllNewKeys(m, front, k);
      var i :| 0 <= i < |front| && front[i].key == k;
      assert fs[i].key == k;
    }
  }

  /** `createProjectController` (projectController.js:13-57); a body without a flats array is None. */
  method CreateProjectController(
    db: Store, name: string, flats: Option<seq<FlatInput>>, uuid: string, now: Timestamp)
    returns (resp: Response<Project>)
    modifies db`projects, db`flats
    ensures name == "" || flats.None? || flats.value == [] <==> resp == Fail(400)
    ensures resp.code == 400 ==> db.projects == old(db.projects) && db.flats == old(db.flats)
    ensures resp.code == 201 ==>
              var id := ProjectIdFor(name, uuid);
              && flats.Some? && resp.success && resp.body.Some?
              && var p := resp.body.value;
              && db.projects == old(db.projects)[id := p]
              && p.projectId == id && p.name == name && p.createdAt == now
              && p.totalApartments == |flats.value|
              && p.totalBlocks == |Blocks(flats.value)|
              && p.soldApartments == CountStatus(flats.value, Sold)
              && p.bookedApartments == CountStatus(flats.value, Booked)
              && p.freeApartments == CountStatus(flats.value, Free)
              && Accounted(p) <= p.totalApartments
              && ((forall i :: 0 <= i < |flats.value| ==> KnownStatus(flats.value[i].status)) <==>
                    Accounted(p) == p.totalApartments)
              && db.flats == PutAll(old(db.flats), NewFlats(id, flats.value, now))
              && (forall k :: k in db.flats && k !in old(db.flats) ==> k.projectId == id)
    ensures resp.code == 400 || resp.code == 201
  {
    if name == "" || flats.None? || flats.value == [] {
      return Fail(400);
    }
    var id := ProjectIdFor(name, uuid);
    var stats := BuildProjectStats(flats.value);
    StatsAddUp(flats.value);
    var p := CreateProject(db, id, name, stats.totalApartments, stats.totalBlocks,
                           stats.soldApartments, stats.freeApartments, stats.bookedApartments, now);
    var _ := CreateProjectFlats(db, id, flats.value, now);
    forall k | k in db.flats && k !in old(db.flats)
      ensures k.projectId == id
    {
      PutAllNewKeys(old(db.flats), NewFlats(id, flats.value, now), k);
    }
    resp := Response(201, true, Some(p));
  }

  /** `getProjectFlatsController` (projectController.js:80-105). */
  function GetProjectFlatsController(flats: map<FlatKey, Flat>, projectId: string): (resp: Response<set<Flat>>)
    ensures projectId == "" <==> resp == Fail(400)
    ensures resp.code == 200 ==>
              && resp.success && resp.body.Some?
              && (forall f :: f in resp.body.value <==>
                    exists k :: k in flats && k.projectId == projectId && flats[k] == f)
    ensures resp.code == 400 || resp.code == 200
  {
    if projectId == "" then Fail(400)
    else Response(200, true, Some(GetFlatsByProjectId(flats, projectId)))
  }
}
