/**
 * The schedule handlers (src/controllers/scheduleController.js): presence checks and the
 * `YYYY-MM-DD` shape test in front of the phone-to-date table. A request field that is
 * absent or empty is "".
 */
module ScheduleController {
  import opened Wrappers
  import opened Records
  import opened Text
  import opened Db
  import opened WpRepo

  /** `^\d{4}-\d{2}-\d{2}$`, written as a template: '#' stands for one ASCII digit. */
  const DatePattern: string := "####-##-##"

  /** `s` matches the template character by character and has its length. */
  predicate FitsPattern(s: string, pattern: string)
  {
    && |s| == |pattern|
    && forall i :: 0 <= i < |s| ==> if pattern[i] == '#' then IsDigit(s[i]) else s[i] == pattern[i]
  }

  predicate IsDateShaped(date: string)
  {
    FitsPattern(date, DatePattern)
  }

  /** The shape test read as four digits, a dash, two digits, a dash and two digits. */
  lemma DateShapeParts(date: string)
    ensures IsDateShaped(date) <==>
              && |date| == 10
              && AllDigits(date[..4]) && date[4] == '-'
              && AllDigits(date[5..7]) && date[7] == '-'
              && AllDigits(date[8..])
  {
    if |date| == 10 && AllDigits(date[..4]) && date[4] == '-' && AllDigits(date[5..7]) && date[7] == '-'
       && AllDigits(date[8..]) {
      forall i | 0 <= i < |date|
        ensures if DatePattern[i] == '#' then IsDigit(date[i]) else date[i] == DatePattern[i]
      {
        if i < 4 {
          assert date[..4][i] == date[i];
        } else if 5 <= i < 7 {
          assert date[5..7][i - 5] == date[i];
        } else if 8 <= i {
          assert date[8..][i - 8] == date[i];
        }
      }
    }
    if IsDateShaped(date) {
      assert forall i :: 0 <= i < 4 ==> date[..4][i] == date[i] && DatePattern[i] == '#';
      assert forall i :: 0 <= i < 2 ==> date[5..7][i] == date[5 + i] && DatePattern[5 + i] == '#';
      assert forall i :: 0 <= i < 2 ==> date[8..][i] == date[8 + i] && DatePattern[8 + i] == '#';
    }
  }

  /** Month and day are not range-checked: the thirteenth month passes. */
  lemma MonthNotRangeChecked()
    ensures IsDateShaped("2024-13-45")
    ensures !IsDateShaped("2024-1-05")
    ensures !IsDateShaped("2024-01-05 ")
  {
    var d := "2024-13-45";
    assert DatePattern[0] == '#' && DatePattern[4] == '-';
    assert !IsDateShaped("2024-1-05") by {
      assert |"2024-1-05"| != |DatePattern|;
    }
    assert !IsDateShaped("2024-01-05 ") by {
      assert |"2024-01-05 "| != |DatePattern|;
    }
    assert forall i :: 0 <= i < |d| ==> if DatePattern[i] == '#' then IsDigit(d[i]) else d[i] == DatePattern[i];
  }

  /** The echoed body of a saved schedule. */
  datatype ScheduleBody = ScheduleBody(phone: string, date: string)

  /** `upsertSchedule` (scheduleController.js:3-37). */
  method UpsertSchedule(db: Store, phone: string, date: string) returns (resp: Response<ScheduleBody>)
    modifies db`schedules
    ensures phone == "" || date == "" || !IsDateShaped(date) <==> resp == Fail(400)
    ensures resp.code == 400 ==> db.schedules == old(db.schedules)
    ensures resp.code == 200 ==>
              && resp.success && resp.body == Some(ScheduleBody(phone, date))
              && db.schedules == old(db.schedules)[phone := date]
    ensures resp.code == 400 || resp.code == 200
  {
    if phone == "" || date == "" {
      return Fail(400);
    }
    if !IsDateShaped(date) {
      return Fail(400);
    }
    var _ := UpsertPhoneDate(db, phone, date);
    resp := Response(200, true, Some(ScheduleBody(phone, date)));
  }

  /** A saved schedule is what the next read of that phone answers. */
  lemma UpsertThenGet(schedules: map<string, string>, phone: string, date: string, other: string)
    requires other != phone
    ensures GetScheduleByPhone(schedules[phone := date], phone) == Some(date)
    ensures GetScheduleByPhone(schedules[phone := date], other) == GetScheduleByPhone(schedules, other)
  {
  }

  /**
   * `getScheduleByPhone` (scheduleController.js:39-71): 400 without a phone; a phone with
   * no schedule is answered 200 with no data.
   */
  function GetScheduleByPhoneController(schedules: map<string, string>, phone: string)
    : (resp: Response<string>)
    ensures phone == "" <==> resp == Fail(400)
    ensures resp.code == 200 ==> resp.success && (resp.body.None? <==> phone !in schedules)
    ensures resp.code == 200 && resp.body.Some? ==> resp.body.value == schedules[phone]
    ensures resp.code == 400 || resp.code == 200
  {
    if phone == "" then Fail(400)
    else Response(200, true, GetScheduleByPhone(schedules, phone))
  }
}
