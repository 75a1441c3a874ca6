/**
 * The rows the routes read (shared/schema.ts), reduced to the columns the modelled
 * routes use. Timestamps are milliseconds since the epoch; a nullable column is an
 * `Option`; ids are the `serial` primary keys.
 */
module Records {
  import opened Wrappers

  datatype Lead = Lead(id: nat, name: string, status: Option<string>, createdAt: Option<int>)

  datatype Ticket = Ticket(
    id: nat, title: string, status: Option<string>,
    dueDate: Option<int>, createdAt: Option<int>, updatedAt: Option<int>)

  datatype Deal = Deal(
    id: nat, title: string, stage: Option<string>,
    expectedCloseDate: Option<int>, createdAt: Option<int>)

  datatype Project = Project(id: nat, name: string, status: Option<string>, endDate: Option<int>)

  datatype Task = Task(id: nat, title: string, status: Option<string>, dueDate: Option<int>)

  datatype User = User(id: nat)

  /** A decimal digit. */
  function Digit(d: nat): (c: char)
    requires d < 10
    ensures '0' <= c <= '9' && c as int - '0' as int == d
  {
    ('0' as int + d) as char
  }

  /** A number written in decimal, as a template literal writes an id. */
  function Decimal(n: nat): (r: string)
    ensures r != [] && forall i :: 0 <= i < |r| ==> '0' <= r[i] <= '9'
    ensures n < 10 <==> |r| == 1
  {
    if n < 10 then [Digit(n)] else Decimal(n / 10) + [Digit(n % 10)]
  }

  /** Different numbers are written differently. */
  lemma {:induction false} DecimalInjective(a: nat, b: nat)
    ensures Decimal(a) == Decimal(b) ==> a == b
    decreases a
  {
    if Decimal(a) == Decimal(b) && a >= 10 && b >= 10 {
      var da, db := Decimal(a), Decimal(b);
      assert da[|da| - 1] == db[|db| - 1];
      assert da[..|da| - 1] == Decimal(a / 10);
      assert db[..|db| - 1] == Decimal(b / 10);
      DecimalInjective(a / 10, b / 10);
    }
  }

  /** A nullable text column interpolated into a template literal. */
  function Shown(o: Option<string>): string {
    match o
    case Some(s) => s
    case None => "null"
  }
}
