/**
 * The `wp_table` (src/repository/wp.repo.js): one appointment date per phone number.
 * A phone given as "" stands for the falsy values (undefined, null, "") the handlers pass.
 */
module WpRepo {
  import opened Wrappers
  import opened Records
  import opened Db

  /** `upsertPhoneDate` (wp.repo.js:6-18): the phone's date, replacing any earlier one. */
  method UpsertPhoneDate(db: Store, phone: string, date: string) returns (r: bool)
    modifies db`schedules
    ensures r
    ensures db.schedules == old(db.schedules)[phone := date]
  {
    db.schedules := db.schedules[phone := date];
    r := true;
  }

  /** `getScheduleByPhone` (wp.repo.js:19-28). */
  function GetScheduleByPhone(schedules: map<string, string>, phone: string): (r: Option<string>)
    ensures r.None? <==> phone !in schedules
    ensures r.Some? ==> r.value == schedules[phone]
  {
    if phone in schedules then Some(schedules[phone]) else None
  }

  /**
   * The table after the intended `deleteScheduleByPhone`: the phone's row is gone, other
   * phones are untouched, and a falsy phone changes nothing.
   */
  function AfterDelete(schedules: map<string, string>, phone: string): (m: map<string, string>)
    ensures phone != "" ==> phone !in m
    ensures forall p :: p != phone ==> (p in m <==> p in schedules)
    ensures forall p :: p in m ==> p in schedules && m[p] == schedules[p]
    ensures phone == "" ==> m == schedules
  {
    if phone == "" then schedules else schedules - {phone}
  }

  /**
   * `deleteScheduleByPhone` (wp.repo.js:30-50) as its authors meant it: a conditional
   * delete whose failure on an absent phone is ignored, so the answer is always true.
   */
  method DeleteScheduleByPhone(db: Store, phone: string) returns (r: bool)
    modifies db`schedules
    ensures r
    ensures db.schedules == AfterDelete(old(db.schedules), phone)
  {
    if phone == "" {
      return true;
    }
    if phone in db.schedules {
      db.schedules := db.schedules - {phone};
    }
    r := true;
  }

  /**
   * `deleteScheduleByPhone` as the file is written: `DeleteCommand` is not among its
   * imports, so any truthy phone throws a ReferenceError, which the catch re-throws;
   * nothing is deleted.
   */
  method DeleteScheduleByPhoneAsWritten(db: Store, phone: string) returns (r: Result<bool, Failure>)
    ensures phone == "" ==> r == Ok(true)
    ensures phone != "" ==> r == Err(NotDefined("DeleteCommand"))
  {
    if phone == "" {
      return Ok(true);
    }
    r := Err(NotDefined("DeleteCommand"));
  }

  /** As written the delete never removes a schedule: it fails exactly where it should act. */
  function DeleteOutcomeAsWritten(schedules: map<string, string>, phone: string)
    : (out: (Result<bool, Failure>, map<string, string>))
    ensures out.1 == schedules
    ensures out.0.Ok? <==> phone == ""
  {
    if phone == "" then (Ok(true), schedules) else (Err(NotDefined("DeleteCommand")), schedules)
  }

  /** For a scheduled phone the written code and the intended one leave different tables. */
  lemma DeleteAsWrittenKeepsSchedule(schedules: map<string, string>, phone: string)
    requires phone != "" && phone in schedules
    ensures DeleteOutcomeAsWritten(schedules, phone).1 != AfterDelete(schedules, phone)
  {
    assert phone in DeleteOutcomeAsWritten(schedules, phone).1;
  }
}
