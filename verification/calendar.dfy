/** Calendar dates as integer triples and the whole-years age computation
    of `calculateAge` (client/src/components/Dashboard/Dashboard.js). */
module Calendar {

  /** A calendar date. Both dates of an age computation use the same month
      numbering, so the 0-based months of `Date.getMonth` change nothing. */
  datatype Date = Date(year: int, month: int, day: int)

  /** Chronological order: by year, then month, then day. */
  predicate OnOrBefore(a: Date, b: Date) {
    || a.year < b.year
    || (a.year == b.year && a.month < b.month)
    || (a.year == b.year && a.month == b.month && a.day <= b.day)
  }

  /** The date `n` years after `d`: same month and day, year moved by `n`. */
  function Anniversary(d: Date, n: int): Date {
    d.(year := d.year + n)
  }

  /** `calculateAge`: subtract the years, then take one off when this year's
      birthday (month, day) is still ahead of today. The result is the number
      of anniversaries of `birth` that have come by `today`: the
      `age`-th anniversary is on or before today and the next one is not. */
  function AgeOn(birth: Date, today: Date): (age: int)
    ensures OnOrBefore(Anniversary(birth, age), today)
    ensures !OnOrBefore(Anniversary(birth, age + 1), today)
  {
    var years := today.year - birth.year;
    var monthDiff := today.month - birth.month;
    if monthDiff < 0 || (monthDiff == 0 && today.day < birth.day) then years - 1 else years
  }

  /** The anniversary characterisation pins the age down: any `n` whose
      anniversary has come while the next has not is the computed age. */
  lemma AgeIsUnique(birth: Date, today: Date, n: int)
    requires OnOrBefore(Anniversary(birth, n), today)
    requires !OnOrBefore(Anniversary(birth, n + 1), today)
    ensures n == AgeOn(birth, today)
  {
    var a := AgeOn(birth, today);
    if n < a {
      AnniversaryMonotone(birth, n + 1, a);
      OnOrBeforeTransitive(Anniversary(birth, n + 1), Anniversary(birth, a), today);
    } else if a < n {
      AnniversaryMonotone(birth, a + 1, n);
      OnOrBeforeTransitive(Anniversary(birth, a + 1), Anniversary(birth, n), today);
    }
  }

  /** Birthday rule: once this year's birthday has come, the age is the
      difference of the years; before it, one less. */
  lemma AgeByBirthday(birth: Date, today: Date)
    ensures OnOrBefore(Anniversary(birth, today.year - birth.year), today) ==>
              AgeOn(birth, today) == today.year - birth.year
    ensures !OnOrBefore(Anniversary(birth, today.year - birth.year), today) ==>
              AgeOn(birth, today) == today.year - birth.year - 1
  {
  }

  /** Someone born on or before today has a non-negative age. */
  lemma AgeNonNegative(birth: Date, today: Date)
    requires OnOrBefore(birth, today)
    ensures AgeOn(birth, today) >= 0
  {
    if AgeOn(birth, today) < 0 {
      AnniversaryMonotone(birth, AgeOn(birth, today) + 1, 0);
      OnOrBeforeTransitive(Anniversary(birth, AgeOn(birth, today) + 1), birth, today);
    }
  }

  /** With the birth date fixed, the age never decreases as today moves
      forward. */
  lemma AgeMonotone(birth: Date, today: Date, later: Date)
    requires OnOrBefore(today, later)
    ensures AgeOn(birth, today) <= AgeOn(birth, later)
  {
    var a := AgeOn(birth, today);
    OnOrBeforeTransitive(Anniversary(birth, a), today, later);
    if AgeOn(birth, later) < a {
      AnniversaryMonotone(birth, AgeOn(birth, later) + 1, a);
      OnOrBeforeTransitive(Anniversary(birth, AgeOn(birth, later) + 1), Anniversary(birth, a), later);
    }
  }

  /** The two worked examples: one day before the 20th birthday the age is
      19; on the birthday it is 20. */
  lemma AgeExamples()
    ensures AgeOn(Date(2004, 6, 16), Date(2024, 6, 15)) == 19
    ensures AgeOn(Date(2004, 6, 15), Date(2024, 6, 15)) == 20
  {
  }

  lemma OnOrBeforeTransitive(a: Date, b: Date, c: Date)
    requires OnOrBefore(a, b) && OnOrBefore(b, c)
    ensures OnOrBefore(a, c)
  {
  }

  lemma AnniversaryMonotone(d: Date, m: int, n: int)
    requires m <= n
    ensures OnOrBefore(Anniversary(d, m), Anniversary(d, n))
  {
  }
}
