/** Users: their gender and role, and the age derived from the date of birth. */
module Users {
  import opened Js

  datatype Gender = Male | Female

  /** "admin" or "user" (a customer). */
  datatype Role = Admin | Customer

  /**
   * The `age` virtual: the difference of the years, less one when today's
   * (month, day) comes strictly before the birthday's.
   */
  function Age(dob: Date, today: Date): (r: int)
    ensures today.year - dob.year - 1 <= r <= today.year - dob.year
  {
    var age := today.year - dob.year;
    if EarlierInYear(today, dob) then age - 1 else age
  }

  /** The birthday of `dob` in year `y`. */
  function Anniversary(dob: Date, y: int): Date
  {
    Date(y, dob.month, dob.day)
  }

  /** How many birthdays after the birth year, up to year `y`, fall on or before `today`. */
  function BirthdaysBy(dob: Date, today: Date, y: int): nat
    decreases y - dob.year
  {
    if y <= dob.year then 0
    else BirthdaysBy(dob, today, y - 1) + (if OnOrBefore(Anniversary(dob, y), today) then 1 else 0)
  }

  lemma {:induction false} EveryEarlierYearCounts(dob: Date, today: Date, y: int)
    requires dob.year <= y < today.year
    ensures BirthdaysBy(dob, today, y) == y - dob.year
    decreases y - dob.year
  {
    if y > dob.year {
      EveryEarlierYearCounts(dob, today, y - 1);
    }
  }

  /** For anyone already born, the age is the number of birthdays they have had. */
  lemma AgeCountsBirthdays(dob: Date, today: Date)
    requires OnOrBefore(dob, today)
    ensures Age(dob, today) == BirthdaysBy(dob, today, today.year)
  {
    if today.year > dob.year {
      EveryEarlierYearCounts(dob, today, today.year - 1);
    }
  }

  /** On the birthday itself the age is the plain difference of the years. */
  lemma AgeOnBirthday(dob: Date, y: int)
    ensures Age(dob, Anniversary(dob, y)) == y - dob.year
  {
  }

  /** Anyone born on or before today has a non-negative age. */
  lemma AgeNonNegative(dob: Date, today: Date)
    requires OnOrBefore(dob, today)
    ensures Age(dob, today) >= 0
  {
  }

  /** The age never decreases as today advances. */
  lemma AgeMonotone(dob: Date, today1: Date, today2: Date)
    requires OnOrBefore(today1, today2)
    ensures Age(dob, today1) <= Age(dob, today2)
  {
  }

  /** Within one year, passing the birthday raises the age by exactly one. */
  lemma AgeRisesAtBirthday(dob: Date, before: Date, after: Date)
    requires before.year == after.year
    requires EarlierInYear(before, dob) && !EarlierInYear(after, dob)
    ensures Age(dob, after) == Age(dob, before) + 1
  {
  }
}
