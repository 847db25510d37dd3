/**
 * The e-mail that tells the user and the partner about a patched request
 * (emails/formats/email_inform_update_format.js): a fixed subject, and an
 * HTML body with the request's id, the previous values and the updated
 * values, where each updated value that changed is set in bold.
 */
module UpdateEmail {
  import opened Js
  import opened Primitives
  import Rq = Requests

  datatype Email = Email(subject: string, html: string)

  const Subject: string := "<Do not reply> A check-up request has been updated"

  /** The labels of the five lines of each block, in order. */
  const Labels: seq<string> := ["Update from", "Description", "GPResponse", "Appointment time", "Status"]

  /** isDifferent: the updated text, set in bold when it differs from the previous one. */
  function IsDifferent(before: string, after: string): string {
    if before != after then "<strong>" + after + "</strong>" else after
  }

  /** isDifferent leaves the text as it is exactly when nothing changed; otherwise it wraps it in bold. */
  lemma IsDifferentMarksChanges(before: string, after: string)
    ensures IsDifferent(before, after) == after <==> before == after
    ensures IsDifferent(before, after) == "<strong>" + after + "</strong>" <==> before != after
  {
    assert |"<strong>" + after + "</strong>"| == |after| + 17;
  }

  /** The values the five lines show: stamp, description, GP response, date, status. */
  function Values(host: Host, r: Rq.Request): (v: seq<string>)
    ensures |v| == |Labels|
  {
    [r.lastUpdater, r.description, r.gpResponse, host.dateString(r.appointmentTime), r.status]
  }

  /** The updated block's values: each passed through isDifferent against the previous one. */
  function Marked(before: seq<string>, after: seq<string>): (m: seq<string>)
    requires |before| == |after|
    ensures |m| == |after|
    ensures forall i :: 0 <= i < |m| ==> m[i] == IsDifferent(before[i], after[i])
  {
    seq(|after|, i requires 0 <= i < |after| => IsDifferent(before[i], after[i]))
  }

  /** One line of a block. */
  function Line(name: string, value: string): string {
    "<br>" + name + ": " + value + " <br>"
  }

  /** The lines of a block, labels paired with values in order. */
  function Lines(labels: seq<string>, values: seq<string>): string
    requires |labels| == |values|
    decreases |labels|
  {
    if |labels| == 0 then "" else Line(labels[0], values[0]) + Lines(labels[1..], values[1..])
  }

  function Block(values: seq<string>): string
    requires |values| == |Labels|
  {
    "<blockquote >" + Lines(Labels, values) + "</blockquote>"
  }

  const HeadingStart: string := "<h1>Hello! There is a new update for request with ID "

  function Heading(id: int): string {
    HeadingStart + ToDecimal(id) + " </h1>"
  }

  /** The heading names the request: its id can be read back from the heading. */
  lemma HeadingCarriesId(id: int)
    ensures var h := Heading(id);
      && |HeadingStart| + |ToDecimal(id)| <= |h|
      && ParseInt(h[|HeadingStart|..|HeadingStart| + |ToDecimal(id)|]) == Finite(id)
  {
    var h := Heading(id);
    assert h[|HeadingStart|..|HeadingStart| + |ToDecimal(id)|] == ToDecimal(id);
    ParseIntOfDecimal(id);
  }

  /** What follows the heading: the previous block, then the updated block with the changes in bold. */
  function Sections(host: Host, before: Rq.Request, after: Rq.Request): string {
    "<p>Here is the previous request:</p>"
      + Block(Values(host, before))
      + "<p>Here is the updated request:</p>"
      + Block(Marked(Values(host, before), Values(host, after)))
  }

  /** The e-mail for a request before and after an update: the fixed subject, and a body that opens with the heading. */
  function Format(host: Host, before: Rq.Request, after: Rq.Request): (e: Email)
    ensures e.subject == Subject
    ensures |Heading(after.id)| <= |e.html| && e.html[..|Heading(after.id)|] == Heading(after.id)
  {
    Email(Subject, Heading(after.id) + Sections(host, before, after))
  }

  /**
   * Each line of the updated block shows the updated value, in bold
   * exactly when it differs from the previous value; the previous block
   * shows the previous values as they were.
   */
  lemma UpdatedBlockEmphasisesChanges(host: Host, before: Rq.Request, after: Rq.Request, i: int)
    requires 0 <= i < |Labels|
    ensures var m := Marked(Values(host, before), Values(host, after));
      && (m[i] == Values(host, after)[i] <==> Values(host, before)[i] == Values(host, after)[i])
      && (m[i] == "<strong>" + Values(host, after)[i] + "</strong>" <==> Values(host, before)[i] != Values(host, after)[i])
  {
    IsDifferentMarksChanges(Values(host, before)[i], Values(host, after)[i]);
  }

  /** When none of the five values changed, the updated block repeats the previous one. */
  lemma UnchangedRequestRepeatsBlock(host: Host, before: Rq.Request, after: Rq.Request)
    requires Values(host, before) == Values(host, after)
    ensures Block(Marked(Values(host, before), Values(host, after))) == Block(Values(host, before))
  {
    var m := Marked(Values(host, before), Values(host, after));
    assert m == Values(host, before);
  }

  /**
   * A lone change of status (the usual patch) sets exactly the status line
   * in bold: the other four lines of the two blocks agree.
   */
  lemma StatusChangeMarksStatusOnly(host: Host, before: Rq.Request, after: Rq.Request)
    requires before.status != after.status
    requires after == before.(status := after.status)
    ensures var m := Marked(Values(host, before), Values(host, after));
      && m[..4] == Values(host, before)[..4]
      && m[4] == "<strong>" + after.status + "</strong>"
  {
    var m := Marked(Values(host, before), Values(host, after));
    forall i | 0 <= i < 4 ensures m[i] == Values(host, before)[i] {
      IsDifferentMarksChanges(Values(host, before)[i], Values(host, after)[i]);
    }
  }
}
