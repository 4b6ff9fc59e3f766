/**
 * The `projects` table (src/repository/project.repo.js): project rows with their three
 * denormalised counters, and the two counter moves the booking and payment handlers make.
 */
module ProjectRepo {
  import opened Wrappers
  import opened Records
  import opened Db

  /** The flats a project's counters account for: sold + booked + free. */
  function Accounted(p: Project): int
  {
    p.soldApartments + p.bookedApartments + p.freeApartments
  }

  /** Everything but the three counters. */
  predicate SameIdentity(p: Project, q: Project)
  {
    q.projectId == p.projectId && q.name == p.name && q.totalApartments == p.totalApartments
    && q.totalBlocks == p.totalBlocks && q.createdAt == p.createdAt
  }

  /** `SET soldApartments = soldApartments + 1, bookedApartments = bookedApartments - 1` */
  function AfterSale(p: Project): (q: Project)
    ensures q.soldApartments == p.soldApartments + 1 && q.bookedApartments == p.bookedApartments - 1
    ensures q.freeApartments == p.freeApartments && SameIdentity(p, q)
    ensures Accounted(q) == Accounted(p)
  {
    p.(soldApartments := p.soldApartments + 1, bookedApartments := p.bookedApartments - 1)
  }

  /** `SET bookedApartments = bookedApartments + 1, freeApartments = freeApartments - 1` */
  function AfterBooking(p: Project): (q: Project)
    ensures q.bookedApartments == p.bookedApartments + 1 && q.freeApartments == p.freeApartments - 1
    ensures q.soldApartments == p.soldApartments && SameIdentity(p, q)
    ensures Accounted(q) == Accounted(p)
  {
    p.(bookedApartments := p.bookedApartments + 1, freeApartments := p.freeApartments - 1)
  }

  /** Neither move checks its decremented counter: a sale with nothing booked leaves -1. */
  lemma CountersCanGoNegative(p: Project)
    requires p.bookedApartments == 0 && p.freeApartments == 0
    ensures AfterSale(p).bookedApartments == -1 && AfterBooking(p).freeApartments == -1
  {
  }

  /** `createProject` (project.repo.js:11-39): puts the row as given, stamped with `now`. */
  method CreateProject(
    db: Store, projectId: string, name: string, totalApartments: int, totalBlocks: int,
    soldApartments: int, freeApartments: int, bookedApartments: int, now: Timestamp)
    returns (p: Project)
    modifies db`projects
    ensures p.projectId == projectId && p.name == name && p.createdAt == now
    ensures p.totalApartments == totalApartments && p.totalBlocks == totalBlocks
    ensures p.soldApartments == soldApartments && p.freeApartments == freeApartments
    ensures p.bookedApartments == bookedApartments
    ensures db.projects == old(db.projects)[projectId := p]
  {
    p := Project(projectId, name, totalApartments, totalBlocks, soldApartments,
                 freeApartments, bookedApartments, now);
    db.projects := db.projects[projectId := p];
  }

  /**
   * `incrementProjectSoldCount` (project.repo.js:71-88). On a missing project the update
   * expression reads absent counters and the store rejects it.
   */
  method IncrementProjectSoldCount(db: Store, projectId: string) returns (r: Result<bool, Failure>)
    modifies db`projects
    ensures projectId !in old(db.projects) ==> r == Err(MissingAttribute) && db.projects == old(db.projects)
    ensures projectId in old(db.projects) ==>
              r == Ok(true) && db.projects == old(db.projects)[projectId := AfterSale(old(db.projects)[projectId])]
  {
    if projectId !in db.projects {
      return Err(MissingAttribute);
    }
    db.projects := db.projects[projectId := AfterSale(db.projects[projectId])];
    r := Ok(true);
  }

  /** `incrementProjectBookedCount` (project.repo.js:90-107). */
  method IncrementProjectBookedCount(db: Store, projectId: string) returns (r: Result<bool, Failure>)
    modifies db`projects
    ensures projectId !in old(db.projects) ==> r == Err(MissingAttribute) && db.projects == old(db.projects)
    ensures projectId in old(db.projects) ==>
              r == Ok(true) && db.projects == old(db.projects)[projectId := AfterBooking(old(db.projects)[projectId])]
  {
    if projectId !in db.projects {
      return Err(MissingAttribute);
    }
    db.projects := db.projects[projectId := AfterBooking(db.projects[projectId])];
    r := Ok(true);
  }

  /** An element of `getProjectIdAndName`'s result. */
  datatype ProjectRef = ProjectRef(id: string, name: string)

  /** `getProjectIdAndName` (project.repo.js:54-69) over one scan of the table. */
  function GetProjectIdAndName(scan: seq<Project>): (refs: seq<ProjectRef>)
    ensures |refs| == |scan|
    ensures forall i :: 0 <= i < |scan| ==> refs[i].id == scan[i].projectId && refs[i].name == scan[i].name
  {
    if scan == [] then []
    else [ProjectRef(scan[0].projectId, scan[0].name)] + GetProjectIdAndName(scan[1..])
  }

  /** `deleteProject` (project.repo.js:109-118): removes the row, present or not. */
  method DeleteProject(db: Store, projectId: string) returns (r: bool)
    modifies db`projects
    ensures r
    ensures db.projects == old(db.projects) - {projectId}
  {
    db.projects := db.projects - {projectId};
    r := true;
  }
}
