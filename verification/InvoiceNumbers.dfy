/** A broker never has two invoices of the same number. */
module InvoiceNumbers {
  import opened Wrappers
  import opened Sums
  import opened StateMachine
  import opened Keys
  import opened Schema
  import opened Engine
  import Invoices

  ghost predicate NumbersUnique(invoices: seq<Invoice>) {
    forall i, j :: 0 <= i < j < |invoices| ==>
      invoices[i].brokerId != invoices[j].brokerId || invoices[i].invoiceNumber != invoices[j].invoiceNumber
  }

  lemma CreateKeepsNumbers(ks: KeyScheme, db: Db, c: Call)
    requires NumbersUnique(db.invoices) && Attempt(ks, db, c).Ok? && c.event.Create?
    ensures NumbersUnique(Attempt(ks, db, c).value.invoices)
  {
    var db', n := Attempt(ks, db, c).value, |db.invoices|;
    assert FindFirst(db.invoices, Invoices.HasNumber(c.event.brokerId, c.event.invoiceNumber)).None?;
    forall i | 0 <= i < n
      ensures db'.invoices[i] == db.invoices[i]
      ensures db.invoices[i].brokerId != c.event.brokerId || db.invoices[i].invoiceNumber != c.event.invoiceNumber
    {
      assert !Invoices.HasNumber(c.event.brokerId, c.event.invoiceNumber)(db.invoices[i]);
    }
    assert db'.invoices[n].brokerId == c.event.brokerId && db'.invoices[n].invoiceNumber == c.event.invoiceNumber;
  }

  lemma SameNumbers(a: seq<Invoice>, b: seq<Invoice>)
    requires NumbersUnique(a) && |a| == |b|
    requires forall i :: 0 <= i < |a| ==> b[i].brokerId == a[i].brokerId && b[i].invoiceNumber == a[i].invoiceNumber
    ensures NumbersUnique(b)
  {
  }

  lemma NumbersAfterStep(ks: KeyScheme, db: Db, c: Call)
    requires NumbersUnique(db.invoices) && StartsWhereItSays(db, c.event)
    ensures NumbersUnique(Next(ks, db, c).invoices)
  {
    if Attempt(ks, db, c).Ok? {
      if c.event.Create? {
        CreateKeepsNumbers(ks, db, c);
      } else {
        ShapeOfStep(ks, db, c);
        SameNumbers(db.invoices, Next(ks, db, c).invoices);
      }
    }
  }

  /** After any run a broker's invoice numbers are all different. */
  lemma {:induction false} NumbersOfRun(ks: KeyScheme, calls: seq<Call>)
    requires Orderly(ks, calls)
    ensures NumbersUnique(After(ks, calls).invoices)
  {
    if calls != [] {
      var n := |calls| - 1;
      NumbersOfRun(ks, calls[..n]);
      NumbersAfterStep(ks, After(ks, calls[..n]), calls[n]);
    }
  }
}
