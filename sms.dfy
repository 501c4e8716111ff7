/** The pure part of the SMS service: the normalisation `send_sms` applies
    to a destination number and the two booking messages it sends.  The
    delivery itself (the Twilio client) is not part of this model. */
module Sms {
  import opened Seqs
  import Text

  /** One message handed to the carrier. */
  datatype Sms = Sms(to: string, body: string)

  /** The characters the chained `replace` calls delete. */
  predicate Punctuation(c: char)
  {
    c == '-' || c == ' ' || c == '(' || c == ')'
  }

  function Kept(c: char): bool
  {
    !Punctuation(c)
  }

  /** The normalisation in `send_sms`: a number that already starts with
      `+` is used as it is; any other gets `+1` in front of it once the
      dashes, spaces and parentheses are removed.  Every other character
      is kept, in order. */
  function NormalizePhone(p: string): (r: string)
    ensures Text.StartsWith(r, "+")
    ensures Text.StartsWith(p, "+") ==> r == p
    ensures !Text.StartsWith(p, "+") ==>
      && Text.StartsWith(r, "+1")
      && (forall i :: 2 <= i < |r| ==> !Punctuation(r[i]))
      && (forall c :: multiset(r[2..])[c] == if Punctuation(c) then 0 else multiset(p)[c])
      && Subseq(r[2..], p)
  {
    if Text.StartsWith(p, "+") then p
    else
      var digits := Filter(p, Kept);
      FilterAll(p, Kept);
      FilterCountsAll(p, Kept);
      FilterSubseq(p, Kept);
      assert ("+1" + digits)[2..] == digits;
      assert forall i :: 2 <= i < |"+1" + digits| ==> ("+1" + digits)[i] == digits[i - 2];
      "+1" + digits
  }

  /** Normalising a normalised number changes nothing. */
  lemma NormalizeIdempotent(p: string)
    ensures NormalizePhone(NormalizePhone(p)) == NormalizePhone(p)
  {
  }

  /** A number without punctuation and without `+` only gains the country prefix. */
  lemma {:induction false} NormalizePlainNumber(p: string)
    requires !Text.StartsWith(p, "+") && forall i :: 0 <= i < |p| ==> !Punctuation(p[i])
    ensures NormalizePhone(p) == "+1" + p
  {
    FilterKeepsAll(p);
  }

  lemma {:induction false} FilterKeepsAll(p: string)
    requires forall i :: 0 <= i < |p| ==> !Punctuation(p[i])
    ensures Filter(p, Kept) == p
  {
    if p != [] {
      assert forall i :: 0 <= i < |p[1..]| ==> !Punctuation(p[1..][i]) by {
        forall i | 0 <= i < |p[1..]| ensures !Punctuation(p[1..][i]) {
          assert p[1..][i] == p[i + 1];
        }
      }
      FilterKeepsAll(p[1..]);
      assert Kept(p[0]);
      assert p == [p[0]] + p[1..];
    }
  }

  const ConfirmationHead := "Booking Confirmed!\n\nProvider: "
  const ConfirmationTail := "\n\nThank you for booking with us!"
  const NotificationHead := "New Booking!\n\nCustomer: "
  const NotificationTail := "\n\nPlease contact the customer to confirm."

  /** An f-string with three fields: `head{x}sep1{y}sep2{z}tail`. */
  function Fill(head: string, x: string, sep1: string, y: string, sep2: string, z: string, tail: string): (s: string)
    ensures Text.StartsWith(s, head + x + sep1)
    ensures Text.Contains(s, x) && Text.Contains(s, y) && Text.Contains(s, z)
  {
    var s := head + x + sep1 + y + sep2 + z + tail;
    var p1 := head;
    var p2 := head + x + sep1;
    var p3 := head + x + sep1 + y + sep2;
    assert s[|p1|..|p1| + |x|] == x;
    assert s[|p2|..|p2| + |y|] == y;
    assert s[|p3|..|p3| + |z|] == z;
    assert s[..|p2|] == p2;
    Text.ContainsFromPosition(s, x, |p1|);
    Text.ContainsFromPosition(s, y, |p2|);
    Text.ContainsFromPosition(s, z, |p3|);
    s
  }

  /** `send_booking_confirmation_to_customer`: the message to the customer
      names the provider and the provider's phone and e-mail. */
  function BookingConfirmation(customerPhone: string, providerName: string, providerPhone: string,
                               providerEmail: string): (m: Sms)
    ensures m.to == NormalizePhone(customerPhone)
    ensures Text.StartsWith(m.body, ConfirmationHead + providerName + "\nPhone: ")
    ensures Text.Contains(m.body, providerName) && Text.Contains(m.body, providerPhone)
      && Text.Contains(m.body, providerEmail)
  {
    Sms(NormalizePhone(customerPhone),
      Fill(ConfirmationHead, providerName, "\nPhone: ", providerPhone, "\nEmail: ", providerEmail, ConfirmationTail))
  }

  /** `send_booking_notification_to_provider`: the message to the provider
      names the customer, the customer's address and the service booked. */
  function BookingNotification(providerPhone: string, customerName: string, customerAddress: string,
                               serviceName: string): (m: Sms)
    ensures m.to == NormalizePhone(providerPhone)
    ensures Text.StartsWith(m.body, NotificationHead + customerName + "\nAddress: ")
    ensures Text.Contains(m.body, customerName) && Text.Contains(m.body, customerAddress)
      && Text.Contains(m.body, serviceName)
  {
    Sms(NormalizePhone(providerPhone),
      Fill(NotificationHead, customerName, "\nAddress: ", customerAddress, "\nService: ", serviceName, NotificationTail))
  }

  /** The two kinds of message can never be confused: their first lines differ. */
  lemma TemplatesDiffer(a: string, b: string, c: string, d: string, e: string, f: string, g: string, h: string)
    ensures BookingConfirmation(a, b, c, d).body != BookingNotification(e, f, g, h).body
  {
    var m1 := BookingConfirmation(a, b, c, d).body;
    var m2 := BookingNotification(e, f, g, h).body;
    assert m1[0] == 'B' && m2[0] == 'N';
  }
}
