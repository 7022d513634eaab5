/// The Angular front end's occasion forms: the date check shared by the create
/// and edit pages, and what their submit handlers do to the occasion's list of
/// contributions before it is sent to the occasion service.
module Forms {
  import opened Doc

  /** A contribution as the UI holds it: the contributor's user id and the
      amount typed into the form. */
  datatype UiContribution = UiContribution(userId: string, amount: real)

  /** The three numbers parseInt makes of the "YYYY-MM-DD" parts of the date
      field; None stands for NaN (a missing or non-numeric part). */
  datatype DateParts = DateParts(year: Option<int>, month: Option<int>, day: Option<int>)

  /** The browser's clock as validateDate reads it: getDay (the weekday, 0 to
      6), getMonth (0-based) and getFullYear. */
  datatype Today = Today(weekday: int, month: int, year: int)

  const InvalidDate := "Invalid date given."

  const MonthLengths: seq<int> := [31, 28, 31, 30, 31, 30, 31, 31, 30, 31, 30, 31]

  /** The Gregorian rule: every fourth year, except centuries not divisible by
      400. A NaN year is never a leap year, as NaN % 4 is not 0. */
  predicate IsLeapYear(year: Option<int>)
  {
    year.Some? && year.value % 4 == 0 && (year.value % 100 != 0 || year.value % 400 == 0)
  }

  /** The length of a month of the Gregorian calendar, written out month by
      month as a reference for the table the page uses. */
  function DaysInMonth(year: Option<int>, month: int): (n: int)
    requires 1 <= month <= 12
    ensures 28 <= n <= 31
    ensures n == 29 <==> month == 2 && IsLeapYear(year)
    ensures n == 28 <==> month == 2 && !IsLeapYear(year)
    ensures n == 30 <==> month == 4 || month == 6 || month == 9 || month == 11
  {
    if month == 2 then (if IsLeapYear(year) then 29 else 28)
    else if month == 4 || month == 6 || month == 9 || month == 11 then 30
    else 31
  }

  /** A day exists in the month. Any NaN part fails: NaN > 0 is false and
      indexing the table with NaN or with a month outside 1..12 gives
      undefined, to which every comparison is false. */
  predicate ValidDay(year: Option<int>, month: Option<int>, day: Option<int>)
  {
    day.Some? && day.value > 0 && month.Some? && 1 <= month.value <= 12
    && day.value <= DaysInMonth(year, month.value)
  }

  /** isValidDay: a local copy of the month table, February set to 29 in a
      leap year, then the day checked against the month's entry. */
  method IsValidDay(year: Option<int>, month: Option<int>, day: Option<int>) returns (valid: bool)
    ensures valid == ValidDay(year, month, day)
  {
    var daysInaMonth := new int[12](i requires 0 <= i < 12 => MonthLengths[i]);
    if year.Some? && year.value % 4 == 0 {
      if year.value % 100 == 0 {
        if year.value % 400 == 0 {
          daysInaMonth[1] := 29;
        }
      } else {
        daysInaMonth[1] := 29;
      }
    }
    assert daysInaMonth[1] == (if IsLeapYear(year) then 29 else 28);
    if day.Some? && day.value > 0 && month.Some? && 1 <= month.value <= 12 {
      valid := day.value <= daysInaMonth[month.value - 1];
    } else {
      valid := false;
    }
  }

  /** validateDate: the error message, or None when the date is accepted. Each
      comparison with a NaN part is false, as in JavaScript. */
  function ValidateDate(date: DateParts, today: Today): (r: Option<string>)
    ensures r.Some? ==> r.value == InvalidDate
    ensures r.None? ==> ValidDay(date.year, date.month, date.day)
    ensures r.None? ==> date.year.None? || date.year.value >= today.year
  {
    var sameYear := date.year == Some(today.year);
    if date.year.Some? && date.year.value < today.year then Some(InvalidDate)
    else if (date.month.Some? && date.month.value > 12)
      || (sameYear && date.month.Some? && date.month.value < today.month) then Some(InvalidDate)
    else if !ValidDay(date.year, date.month, date.day)
      || (sameYear && date.month == Some(today.month) && date.day.Some? && date.day.value < today.weekday)
    then Some(InvalidDate)
    else None
  }

  /** February has a 29th exactly in the leap years of the Gregorian calendar. */
  lemma LeapDay(year: Option<int>)
    ensures ValidDay(year, Some(2), Some(29)) <==> IsLeapYear(year)
  {
  }

  /** Which dates the page accepts, as one condition. */
  lemma AcceptedDates(date: DateParts, today: Today)
    ensures ValidateDate(date, today).None? <==>
      ValidDay(date.year, date.month, date.day)
      && (date.year.None? || date.year.value >= today.year)
      && !(date.year == Some(today.year) && date.month.value < today.month)
      && !(date.year == Some(today.year) && date.month.value == today.month && date.day.value < today.weekday)
  {
  }

  /** A year that does not parse skips the year checks: a valid month and day
      with a NaN year are accepted. */
  lemma UnparsableYearAccepted(month: int, day: int, today: Today)
    requires 1 <= month <= 12 && 1 <= day <= 28
    ensures ValidateDate(DateParts(None, Some(month), Some(day)), today) == None
  {
  }

  /** The month is compared 1-based against the 0-based getMonth, so in the
      current year the previous calendar month still passes. */
  lemma PreviousMonthAccepted(today: Today, day: int)
    requires 1 <= today.month <= 11
    requires 1 <= day <= 28 && day >= today.weekday
    ensures ValidateDate(DateParts(Some(today.year), Some(today.month), Some(day)), today) == None
  {
  }

  /** The day is compared against the weekday, not the day of the month: on a
      Saturday (6) the first days of the month numbered like the current
      0-based month are refused although they lie in the future. */
  lemma FutureDayRefusedOnSaturday(year: int, month: int)
    requires 1 <= month <= 11
    ensures ValidateDate(DateParts(Some(year), Some(month), Some(5)), Today(6, month, year)) == Some(InvalidDate)
  {
  }

  /** The first contribution in `cs` made by `userId`. */
  function FirstContributionOf(cs: seq<UiContribution>, userId: string): (k: Option<nat>)
    ensures k.Some? ==> k.value < |cs| && cs[k.value].userId == userId
    ensures k.Some? ==> forall j :: 0 <= j < k.value ==> cs[j].userId != userId
    ensures k.None? ==> forall j :: 0 <= j < |cs| ==> cs[j].userId != userId
  {
    if cs == [] then None
    else if cs[0].userId == userId then Some(0)
    else match FirstContributionOf(cs[1..], userId)
      case None => None
      case Some(k) => Some(k + 1)
  }

  /** The edit page's contribution list after a submit: the user's first
      entry gets the new amount, or a new entry is appended. */
  function UpdateOrAppend(cs: seq<UiContribution>, userId: string, amount: real): (r: seq<UiContribution>)
    ensures |cs| <= |r| <= |cs| + 1
  {
    match FirstContributionOf(cs, userId)
      case Some(k) => cs[k := cs[k].(amount := amount)]
      case None => cs + [UiContribution(userId, amount)]
  }

  /** After an edit the user's first entry, or a new last entry when there
      was none, carries the new amount; every other entry is kept, and so is
      every entry of another user. */
  lemma UpdateOrAppendFacts(cs: seq<UiContribution>, userId: string, amount: real)
    ensures var r := UpdateOrAppend(cs, userId, amount);
      (exists k :: 0 <= k < |r| && r[k] == UiContribution(userId, amount))
      && (FirstContributionOf(cs, userId).Some? ==>
            |r| == |cs| && r[FirstContributionOf(cs, userId).value] == UiContribution(userId, amount))
      && (FirstContributionOf(cs, userId).None? ==> r == cs + [UiContribution(userId, amount)])
      && (forall j :: 0 <= j < |cs| && Some(j) != FirstContributionOf(cs, userId) ==> r[j] == cs[j])
      && (forall j :: 0 <= j < |cs| && cs[j].userId != userId ==> r[j] == cs[j])
      && (|r| == |cs| + 1 <==> forall j :: 0 <= j < |cs| ==> cs[j].userId != userId)
  {
    var r := UpdateOrAppend(cs, userId, amount);
    match FirstContributionOf(cs, userId)
    case Some(k) =>
      assert r[k] == UiContribution(userId, amount);
    case None =>
      assert r[|cs|] == UiContribution(userId, amount);
  }

  /** A second submit with the same amount changes nothing more. */
  lemma UpdateOrAppendIdempotent(cs: seq<UiContribution>, userId: string, amount: real)
    ensures UpdateOrAppend(UpdateOrAppend(cs, userId, amount), userId, amount) == UpdateOrAppend(cs, userId, amount)
  {
    var r := UpdateOrAppend(cs, userId, amount);
    match FirstContributionOf(cs, userId)
    case Some(k) =>
      assert r[k].userId == userId;
      assert forall j :: 0 <= j < k ==> r[j] == cs[j];
      assert FirstContributionOf(r, userId) == Some(k);
    case None =>
      assert r[|cs|].userId == userId;
      assert FirstContributionOf(r, userId) == Some(|cs|);
  }

  /** The state of the create page that onCreateOccasion touches. */
  class OccasionCreateForm {
    var organizerId: string
    var contributions: seq<UiContribution>
    var eventMessage: Option<string>

    constructor (organizerId: string, contributions: seq<UiContribution>)
      ensures this.organizerId == organizerId && this.contributions == contributions
      ensures eventMessage == None
    {
      this.organizerId := organizerId;
      this.contributions := contributions;
      eventMessage := None;
    }

    /** onCreateOccasion: a refused date only sets the message; an accepted
        one replaces the contributions with the organizer's single one. */
    method OnCreateOccasion(date: DateParts, today: Today, contributionAmount: real)
      modifies this`contributions, this`eventMessage
      ensures eventMessage == ValidateDate(date, today)
      ensures eventMessage.Some? ==> contributions == old(contributions)
      ensures eventMessage.None? ==> contributions == [UiContribution(organizerId, contributionAmount)]
    {
      eventMessage := ValidateDate(date, today);
      if eventMessage != None {
        return;
      }
      var contribution := UiContribution(organizerId, contributionAmount);
      contributions := [];
      contributions := contributions + [contribution];
    }
  }

  /** The state of the edit page that onUpdateOccasion touches. The occasion
      comes from the server's JSON, which has no contributions key when the
      list is empty; the field is then undefined, here None. */
  class OccasionEditForm {
    var userId: string
    var contributions: Option<seq<UiContribution>>
    var eventMessage: Option<string>

    constructor (userId: string, contributions: Option<seq<UiContribution>>)
      ensures this.userId == userId && this.contributions == contributions
      ensures eventMessage == None
    {
      this.userId := userId;
      this.contributions := contributions;
      eventMessage := None;
    }

    /** onUpdateOccasion: a refused date only sets the message; an accepted
        one updates the user's first contribution or appends one. Reading the
        length of undefined contributions is a TypeError, and nothing changes. */
    method OnUpdateOccasion(date: DateParts, today: Today, contributionAmount: real) returns (typeError: bool)
      modifies this`contributions, this`eventMessage
      ensures eventMessage == ValidateDate(date, today)
      ensures typeError <==> eventMessage.None? && old(contributions).None?
      ensures eventMessage.Some? || typeError ==> contributions == old(contributions)
      ensures eventMessage.None? && !typeError ==>
        contributions == Some(UpdateOrAppend(old(contributions).value, userId, contributionAmount))
    {
      typeError := false;
      eventMessage := ValidateDate(date, today);
      if eventMessage != None {
        return;
      }
      if contributions.None? {
        return true;
      }
      var cs := contributions.value;
      var updatedAmount := false;
      var i := 0;
      while i < |cs|
        invariant 0 <= i <= |cs|
        invariant !updatedAmount ==> cs == old(contributions).value
        invariant !updatedAmount ==> forall j :: 0 <= j < i ==> cs[j].userId != userId
        invariant updatedAmount ==> cs == UpdateOrAppend(old(contributions).value, userId, contributionAmount)
        decreases |cs| - i, !updatedAmount
      {
        if cs[i].userId == userId {
          assert FirstContributionOf(cs, userId) == Some(i);
          cs := cs[i := cs[i].(amount := contributionAmount)];
          updatedAmount := true;
          break;
        }
        i := i + 1;
      }
      if !updatedAmount {
        cs := cs + [UiContribution(userId, contributionAmount)];
      }
      contributions := Some(cs);
    }
  }
}
