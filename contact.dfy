/** The contact form's server side, app/api/contact/route.js: the field,
    address and length checks, in order, and the message summary the
    notification mail shows. Sending the mails is not modelled. */
module Contact {
  import opened Common

  datatype ContactRequest = ContactRequest(
    name: Option<string>,
    email: Option<string>,
    orderNumber: Option<string>,
    subject: Option<string>,
    message: Option<string>)

  /** A character of `[^\s@]`. */
  predicate Plain(c: char) {
    !IsSpace(c) && c != '@'
  }

  /** What `/^[^\s@]+@[^\s@]+\.[^\s@]+$/` accepts: one '@' after at least
      one character, then a '.' with a character on each side, and no
      whitespace or other '@' anywhere. */
  ghost predicate EmailShape(s: string) {
    exists i, j :: 0 < i && i + 1 < j && j + 1 < |s| && s[i] == '@' && s[j] == '.' &&
      forall k :: 0 <= k < |s| && k != i ==> Plain(s[k])
  }

  /** The position of the first `c` in `s`. */
  function IndexOf(s: string, c: char): (r: Option<nat>)
    ensures r.Some? ==> r.value < |s| && s[r.value] == c
    ensures r.Some? ==> forall k :: 0 <= k < r.value ==> s[k] != c
    ensures r.None? <==> forall k :: 0 <= k < |s| ==> s[k] != c
  {
    if s == [] then None
    else if s[0] == c then Some(0)
    else match IndexOf(s[1..], c)
      case None => None
      case Some(k) => Some(k + 1)
  }

  /** The regex match, computed from the position of the first '@'. */
  predicate ValidEmail(s: string) {
    match IndexOf(s, '@')
    case None => false
    case Some(i) =>
      i > 0 && (forall k :: 0 <= k < |s| && k != i ==> Plain(s[k])) &&
      exists j :: i + 1 < j < |s| - 1 && s[j] == '.'
  }

  /** The computed check accepts exactly the addresses the pattern describes. */
  lemma ValidEmailIff(s: string)
    ensures ValidEmail(s) <==> EmailShape(s)
  {
    if EmailShape(s) {
      var i, j :| 0 < i && i + 1 < j && j + 1 < |s| && s[i] == '@' && s[j] == '.' &&
        forall k :: 0 <= k < |s| && k != i ==> Plain(s[k]);
      var f := IndexOf(s, '@');
      assert f.Some?;
    }
    if ValidEmail(s) {
      var i := IndexOf(s, '@').value;
      var j :| i + 1 < j < |s| - 1 && s[j] == '.';
      assert 0 < i && i + 1 < j && j + 1 < |s| && s[i] == '@' && s[j] == '.';
    }
  }

  const MinMessageLength := 10
  const SummaryLength := 100

  /** The route's checks in order; the first failure is the 400 reply. */
  function ContactError(req: ContactRequest): (r: Option<string>)
    ensures r.None? <==>
      Truthy(req.name) && Truthy(req.email) && Truthy(req.subject) && Truthy(req.message) &&
      ValidEmail(req.email.value) && |Trim(req.message.value)| >= MinMessageLength
    ensures r == Some("Missing required fields") <==>
      !(Truthy(req.name) && Truthy(req.email) && Truthy(req.subject) && Truthy(req.message))
  {
    if !Truthy(req.name) || !Truthy(req.email) || !Truthy(req.subject) || !Truthy(req.message) then
      Some("Missing required fields")
    else if !ValidEmail(req.email.value) then Some("Invalid email address")
    else if |Trim(req.message.value)| < MinMessageLength then Some("Message must be at least 10 characters")
    else None
  }

  /** `orderNumber` is never required. */
  lemma OrderNumberOptional(req: ContactRequest)
    ensures ContactError(req) == ContactError(req.(orderNumber := None))
  {
  }

  /** `message.substring(0, 100)` followed by "..." when it was longer. */
  function Summary(message: string): (r: string)
    ensures |message| <= SummaryLength ==> r == message
    ensures |message| > SummaryLength ==> |r| == SummaryLength + 3 && r[..SummaryLength] == message[..SummaryLength]
    ensures |message| > SummaryLength ==> r[SummaryLength..] == "..."
  {
    if |message| > SummaryLength then message[..SummaryLength] + "..." else message
  }
}
