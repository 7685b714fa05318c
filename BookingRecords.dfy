/**
 * The stored bookings and the record-level operations of the Booking model
 * (bookings_app/models.py): `validate`, `new` and `update`.
 */
module BookingRecords {
  import opened Wrappers
  import opened Bookings

  const CodeMissing: string := "Por favor ingrese un código"
  const DateMissing: string := "Por favor ingrese una fecha"

  /** `Booking.validate`: one error per missing field, keyed by the field's name. */
  function Validate(code: string, date: Option<int>): (errors: map<string, string>)
    ensures "code" in errors <==> code == ""
    ensures "date" in errors <==> date.None?
    ensures errors.Keys <= {"code", "date"}
    ensures errors == map[] <==> code != "" && date.Some?
  {
    var withCode := if code == "" then map["code" := CodeMissing] else map[];
    if date.None? then withCode["date" := DateMissing] else withCode
  }

  /** The record `Booking.update` saves: code, date and observations replaced only by truthy values. */
  function Updated(b: Booking, code: Option<string>, date: Option<int>, observations: Option<string>): (r: Booking)
    ensures code.Some? && code.value != "" ==> r.code == code.value
    ensures code.None? || code.value == "" ==> r.code == b.code
    ensures date.Some? ==> r.date == date.value
    ensures date.None? ==> r.date == b.date
    ensures observations.Some? && observations.value != "" ==> r.observations == observations.value
    ensures observations.None? || observations.value == "" ==> r.observations == b.observations
    ensures r.(code := b.code, date := b.date, observations := b.observations) == b
  {
    b.(code := OrText(code, b.code), date := ValueOr(date, b.date), observations := OrText(observations, b.observations))
  }

  /** Updating with nothing truthy leaves the booking as it was. */
  lemma UpdateWithNothingKeeps(b: Booking)
    ensures Updated(b, None, None, Some("")) == b
    ensures Updated(b, Some(""), None, None) == b
  {
  }

  /** Updating twice with the same arguments is the same as updating once. */
  lemma UpdateIdempotent(b: Booking, code: Option<string>, date: Option<int>, observations: Option<string>)
    ensures Updated(Updated(b, code, date, observations), code, date, observations) == Updated(b, code, date, observations)
  {
  }

  /** The codes in use. */
  function CodesOf(bookings: seq<Booking>): (r: set<string>)
    ensures forall code :: code in r <==> exists b :: b in bookings && b.code == code
  {
    set b | b in bookings :: b.code
  }

  /** With distinct ids, removing the booking at index i removes exactly the bookings with its id. */
  lemma RemoveUniqueId(s: seq<Booking>, i: nat)
    requires i < |s|
    requires forall a, b :: 0 <= a < b < |s| ==> s[a].id != s[b].id
    ensures forall b :: b in s[..i] + s[i + 1..] <==> b in s && b.id != s[i].id
  {
    var r := s[..i] + s[i + 1..];
    forall b ensures b in r <==> b in s && b.id != s[i].id {
      if b in s && b.id != s[i].id {
        var k :| 0 <= k < |s| && s[k] == b;
        assert k != i;
        assert b == r[if k < i then k else k - 1];
      }
      if b in r {
        var k :| 0 <= k < |r| && r[k] == b;
        var k' := if k < i then k else k + 1;
        assert b == s[k'] && k' != i;
      }
    }
  }

  /**
   * What `Booking.new` gives: the validation errors, a row created, or the
   * IntegrityError the database raises for a code already in use
   * (`unique=True`, bookings_app/models.py:7) or for absent observations
   * (a TextField without `null=True`, line 8).
   */
  datatype NewOutcome = Inserted | Invalid(errors: map<string, string>) | IntegrityError

  /** The booking table: rows with distinct ids and distinct codes, and the id the next insert receives. */
  class BookingStore {
    var bookings: seq<Booking>
    var nextId: int

    ghost predicate Valid()
      reads this
    {
      (forall i, j :: 0 <= i < j < |bookings| ==> bookings[i].id != bookings[j].id) &&
      (forall i, j :: 0 <= i < j < |bookings| ==> bookings[i].code != bookings[j].code) &&
      (forall b :: b in bookings ==> b.id < nextId)
    }

    constructor ()
      ensures Valid() && bookings == []
    {
      bookings := [];
      nextId := 1;
    }

    /** Inserts a row with the next id; its code is not in use yet. */
    method Insert(b: Booking) returns (id: int)
      requires Valid()
      requires b.code !in CodesOf(bookings)
      modifies this
      ensures Valid()
      ensures id == old(nextId)
      ensures bookings == old(bookings) + [b.(id := id)]
    {
      id := nextId;
      ghost var before := bookings;
      bookings := bookings + [b.(id := id)];
      nextId := nextId + 1;
      forall k | 0 <= k < |before| ensures bookings[k].code != b.code {
        assert bookings[k] == before[k] && before[k] in before;
      }
    }

    /**
     * `Booking.new`: validates, and on errors creates nothing and returns
     * them; otherwise creates the booking (approved=False, no approval
     * date), which the database refuses when the code is already used or
     * the observations are absent (the default `observations=None`). The
     * slot, tables and issue date are inputs because `new` itself does not
     * set them.
     */
    method New(code: string, date: Option<int>, user: int, observations: Option<string>,
               slot: SlotTimes, tables: set<int>, issueDate: int)
      returns (outcome: NewOutcome)
      requires Valid()
      modifies this
      ensures Valid()
      ensures outcome.Invalid? <==> Validate(code, date) != map[]
      ensures outcome.Invalid? ==> outcome.errors == Validate(code, date)
      ensures outcome == IntegrityError <==>
        Validate(code, date) == map[] && (code in CodesOf(old(bookings)) || observations.None?)
      ensures !outcome.Inserted? ==> bookings == old(bookings)
      ensures outcome.Inserted? ==>
        code !in CodesOf(old(bookings)) &&
        bookings == old(bookings) + [Booking(old(nextId), code, date.value, slot, tables, user, false, None, observations.value, issueDate)]
    {
      var errs := Validate(code, date);
      if |errs| > 0 {
        assert errs != map[];
        return Invalid(errs);
      }
      assert errs.Keys == {};
      if code in CodesOf(bookings) || observations.None? {
        return IntegrityError;
      }
      var _ := Insert(Booking(0, code, date.value, slot, tables, user, false, None, observations.value, issueDate));
      outcome := Inserted;
    }

    /**
     * `Booking.update` on the row at index i: the save is refused (and the
     * table keeps its rows) when the new code is another row's code.
     */
    method Update(i: int, code: Option<string>, date: Option<int>, observations: Option<string>)
      returns (saved: bool)
      requires Valid()
      requires 0 <= i < |bookings|
      modifies this
      ensures Valid()
      ensures saved <==> forall k :: 0 <= k < |old(bookings)| && k != i ==>
        old(bookings)[k].code != Updated(old(bookings)[i], code, date, observations).code
      ensures saved ==> bookings == old(bookings)[i := Updated(old(bookings)[i], code, date, observations)]
      ensures !saved ==> bookings == old(bookings)
    {
      var u := Updated(bookings[i], code, date, observations);
      if exists k :: 0 <= k < |bookings| && k != i && bookings[k].code == u.code {
        return false;
      }
      ghost var before := bookings;
      bookings := bookings[i := u];
      saved := true;
      forall x | x in bookings ensures x.id < nextId {
        var m :| 0 <= m < |bookings| && bookings[m] == x;
        assert before[m] in before;
      }
    }

    /** Records the staff's decision on the row at index i: its approval flag and approval date. */
    method Decide(i: nat, approved: bool, approvalDate: int)
      requires Valid() && i < |bookings|
      modifies this
      ensures Valid() && nextId == old(nextId)
      ensures bookings == old(bookings)[i := old(bookings)[i].(approved := approved, approvalDate := Some(approvalDate))]
    {
      bookings := bookings[i := bookings[i].(approved := approved, approvalDate := Some(approvalDate))];
      assert forall k :: 0 <= k < |bookings| ==> bookings[k].id == old(bookings)[k].id;
      assert forall k :: 0 <= k < |bookings| ==> bookings[k].code == old(bookings)[k].code;
      forall x | x in bookings ensures x.id < nextId {
        var k :| 0 <= k < |bookings| && bookings[k] == x;
        assert old(bookings)[k] in old(bookings);
      }
    }

    /** Deletes the row at index i. */
    method Delete(i: nat)
      requires Valid() && i < |bookings|
      modifies this
      ensures Valid() && nextId == old(nextId)
      ensures bookings == old(bookings)[..i] + old(bookings)[i + 1..]
    {
      var before := bookings;
      bookings := bookings[..i] + bookings[i + 1..];
      forall a, b | 0 <= a < b < |bookings| ensures bookings[a].id != bookings[b].id {
        var a' := if a < i then a else a + 1;
        var b' := if b < i then b else b + 1;
        assert bookings[a] == before[a'] && bookings[b] == before[b'];
      }
      forall a, b | 0 <= a < b < |bookings| ensures bookings[a].code != bookings[b].code {
        var a' := if a < i then a else a + 1;
        var b' := if b < i then b else b + 1;
        assert bookings[a] == before[a'] && bookings[b] == before[b'];
      }
      forall x | x in bookings ensures x.id < nextId {
        var k :| 0 <= k < |bookings| && bookings[k] == x;
        assert x == before[if k < i then k else k + 1];
      }
    }
  }
}
