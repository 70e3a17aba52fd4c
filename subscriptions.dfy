/**
 * The e-mail subscription's life cycle: `subscribe_alerts` saves the
 * subscription with a fresh token and mails a link to `/verify-email/<token>/`;
 * `verify_email` marks the one subscription holding that token verified.
 */
module Subscriptions {
  import opened Wrappers
  import opened Errors
  import opened Strings
  import opened Clock
  import opened Models
  import opened Forms
  import opened Mailer
  import opened Http
  import opened SubscriberMail

  // ---- subscribe_alerts and verify_email (lines 119-153) -----------------

  const VerifyPrefix: string := "/verify-email/"

  /** `f'/verify-email/{token}/'`. */
  function VerifyPath(token: string): string {
    VerifyPrefix + token + "/"
  }

  /** The route `verify-email/<str:token>/`: a non-empty token without `/`. */
  function ParseVerifyPath(path: string): (r: Option<string>)
    ensures r.Some? ==> VerifyPath(r.value) == path
  {
    if |path| > |VerifyPrefix| + 1 && path[..|VerifyPrefix|] == VerifyPrefix && path[|path| - 1] == '/' then
      var token := path[|VerifyPrefix|..|path| - 1];
      assert path == VerifyPrefix + token + "/";
      if '/' in token then None else Some(token)
    else None
  }

  /** The link the mail carries leads back to its token exactly when the token is routable. */
  lemma VerifyPathRoundTrip(token: string)
    ensures ParseVerifyPath(VerifyPath(token)) == Some(token) <==> token != "" && '/' !in token
  {
    var path := VerifyPath(token);
    assert path[..|VerifyPrefix|] == VerifyPrefix;
    assert path[|VerifyPrefix|..|path| - 1] == token;
  }

  /** `str(uuid.uuid4())`: 36 lower-case hexadecimal digits and hyphens. */
  predicate UuidText(t: string) {
    |t| == 36 && forall i :: 0 <= i < |t| ==> t[i] in "0123456789abcdef-"
  }

  /** Every token the view generates routes back to itself. */
  lemma UuidTokensRoute(token: string)
    requires UuidText(token)
    ensures ParseVerifyPath(VerifyPath(token)) == Some(token)
  {
    VerifyPathRoundTrip(token);
    assert token[0] in token;
  }

  function VerificationMail(origin: string, token: string, from: string, to: string): Mail {
    Mail("Verify your email for Missing Child Alerts",
         "Please click this link to verify your email: " + origin + VerifyPath(token), from, to)
  }

  datatype SubscribeResult = SubscribeResult(response: Response, rows: seq<AlertSubscription>, mails: seq<Mail>)

  /**
   * A subscription form post: an invalid form is shown again; otherwise the
   * subscription is saved, with the values the form stripped and the fresh
   * token, and the verification link is mailed to the stored address.  With `fail_silently=False` a refused mail raises, after the
   * row is saved.  `origin` is the scheme and host `build_absolute_uri`
   * prefixes.
   */
  function Subscribe(rows: seq<AlertSubscription>, email: string, location: string, isEmail: string -> bool,
                     token: string, now: DateTime, origin: string, from: string, api: MailApi): SubscribeResult
  {
    if !SubscribeFormValid(email, location, isEmail, rows) then SubscribeResult(Rerender, rows, [])
    else
      var address := Strip(email);
      var sub := NewAlertSubscription(address, Strip(location), now).(verificationToken := token);
      var mail := VerificationMail(origin, token, from, address);
      SubscribeResult(if api(mail) then RedirectHome else ServerError(SmtpError(address)), rows + [sub], [mail])
  }

  method SubscribeAlerts(table: SubscriptionTable, email: string, location: string, isEmail: string -> bool,
                         token: string, now: DateTime, origin: string, from: string, api: MailApi)
    returns (response: Response, mails: seq<Mail>)
    requires table.Valid()
    modifies table
    ensures table.Valid()
    ensures SubscribeResult(response, table.rows, mails)
         == Subscribe(old(table.rows), email, location, isEmail, token, now, origin, from, api)
  {
    if !SubscribeFormValid(email, location, isEmail, table.rows) {
      return Rerender, [];
    }
    var address := Strip(email);
    var sub := NewAlertSubscription(address, Strip(location), now).(verificationToken := token);
    table.Add(sub);
    var mail := VerificationMail(origin, token, from, address);
    mails := [mail];
    response := if api(mail) then RedirectHome else ServerError(SmtpError(address));
  }

  /** The positions of the rows holding `token`, in increasing order. */
  function TokenMatches(rows: seq<AlertSubscription>, token: string): (r: seq<nat>)
    ensures forall k :: 0 <= k < |r| ==> r[k] < |rows| && rows[r[k]].verificationToken == token
    ensures forall i :: 0 <= i < |rows| && rows[i].verificationToken == token ==> i in r
    ensures forall a, b :: 0 <= a < b < |r| ==> r[a] < r[b]
    decreases |rows|
  {
    if rows == [] then []
    else
      var prefix := rows[..|rows| - 1];
      assert forall i :: 0 <= i < |prefix| ==> prefix[i] == rows[i];
      TokenMatches(prefix, token) + (if rows[|rows| - 1].verificationToken == token then [|rows| - 1] else [])
  }

  datatype VerifyResult = VerifyResult(response: Response, rows: seq<AlertSubscription>)

  /**
   * `get_object_or_404(AlertSubscription, verification_token=token)`, then
   * `verified = True` and `save()`: no match is a 404, several raise
   * `MultipleObjectsReturned`, and only a single match is updated.
   */
  function VerifyEmail(rows: seq<AlertSubscription>, token: string): VerifyResult {
    var hits := TokenMatches(rows, token);
    if |hits| == 0 then VerifyResult(NotFound, rows)
    else if |hits| > 1 then VerifyResult(ServerError(MultipleObjectsReturned), rows)
    else VerifyResult(RedirectHome, rows[hits[0] := rows[hits[0]].(verified := true)])
  }

  method VerifyEmailView(table: SubscriptionTable, token: string) returns (response: Response)
    requires table.Valid()
    modifies table
    ensures table.Valid()
    ensures VerifyResult(response, table.rows) == VerifyEmail(old(table.rows), token)
  {
    var hits := TokenMatches(table.rows, token);
    if |hits| == 0 {
      return NotFound;
    }
    if |hits| > 1 {
      return ServerError(MultipleObjectsReturned);
    }
    table.MarkVerified(hits[0]);
    response := RedirectHome;
  }

  lemma {:induction false} NoMatch(rows: seq<AlertSubscription>, token: string)
    requires forall i :: 0 <= i < |rows| ==> rows[i].verificationToken != token
    ensures TokenMatches(rows, token) == []
    decreases |rows|
  {
    if rows != [] {
      NoMatch(rows[..|rows| - 1], token);
    }
  }

  lemma {:induction false} SingleMatch(rows: seq<AlertSubscription>, token: string, i: nat)
    requires i < |rows| && rows[i].verificationToken == token
    requires forall j :: 0 <= j < |rows| && j != i ==> rows[j].verificationToken != token
    ensures TokenMatches(rows, token) == [i]
    decreases |rows|
  {
    var prefix := rows[..|rows| - 1];
    if i == |rows| - 1 {
      NoMatch(prefix, token);
    } else {
      SingleMatch(prefix, token, i);
    }
  }

  /** A token no subscription holds is a 404 and changes nothing. */
  lemma UnknownTokenChangesNothing(rows: seq<AlertSubscription>, token: string)
    requires forall i :: 0 <= i < |rows| ==> rows[i].verificationToken != token
    ensures VerifyEmail(rows, token) == VerifyResult(NotFound, rows)
  {
    NoMatch(rows, token);
  }

  /** The one row holding the token becomes verified, keeps its token, and nothing else changes. */
  lemma MatchedTokenVerifiesOnlyItsRow(rows: seq<AlertSubscription>, token: string, i: nat)
    requires i < |rows| && rows[i].verificationToken == token
    requires forall j :: 0 <= j < |rows| && j != i ==> rows[j].verificationToken != token
    ensures VerifyEmail(rows, token) == VerifyResult(RedirectHome, rows[i := rows[i].(verified := true)])
  {
    SingleMatch(rows, token, i);
  }

  /** Two subscriptions holding the same token make the link raise. */
  lemma SharedTokenRaises(rows: seq<AlertSubscription>, token: string, i: nat, j: nat)
    requires i < j < |rows| && rows[i].verificationToken == token && rows[j].verificationToken == token
    ensures VerifyEmail(rows, token) == VerifyResult(ServerError(MultipleObjectsReturned), rows)
  {
    var hits := TokenMatches(rows, token);
    assert i in hits && j in hits;
    var a :| 0 <= a < |hits| && hits[a] == i;
    var b :| 0 <= b < |hits| && hits[b] == j;
  }

  /** Following the link twice is the same as following it once. */
  lemma VerifyIdempotent(rows: seq<AlertSubscription>, token: string)
    ensures VerifyEmail(VerifyEmail(rows, token).rows, token) == VerifyEmail(rows, token)
  {
    var once := VerifyEmail(rows, token);
    var hits := TokenMatches(rows, token);
    assert forall k :: 0 <= k < |rows| ==> once.rows[k].verificationToken == rows[k].verificationToken;
    if |hits| == 1 {
      MatchedTokenVerifiesOnlyItsRow(rows, token, hits[0]);
      MatchedTokenVerifiesOnlyItsRow(once.rows, token, hits[0]);
      assert once.rows[hits[0] := once.rows[hits[0]].(verified := true)] == once.rows;
    } else {
      assert once.rows == rows;
    }
  }

  /**
   * Subscribing with a fresh token and then following the mailed link
   * leaves the new subscription verified and subscribed, so it is among
   * the rows the alert mails go to, and every earlier row as it was.
   */
  lemma SubscribeThenVerify(rows: seq<AlertSubscription>, email: string, location: string, isEmail: string -> bool,
                            token: string, now: DateTime, origin: string, from: string, api: MailApi)
    requires SubscribeFormValid(email, location, isEmail, rows)
    requires forall i :: 0 <= i < |rows| ==> rows[i].verificationToken != token
    ensures var s := Subscribe(rows, email, location, isEmail, token, now, origin, from, api);
      var v := VerifyEmail(s.rows, token);
      && |s.mails| == 1 && s.mails[0].to == Strip(email)
      && s.mails[0].body == "Please click this link to verify your email: " + origin + VerifyPath(token)
      && v.response == RedirectHome
      && |v.rows| == |rows| + 1 && v.rows[..|rows|] == rows
      && v.rows[|rows|].email == Strip(email) && v.rows[|rows|].verificationToken == token
      && AlertsOn(v.rows[|rows|])
  {
    var s := Subscribe(rows, email, location, isEmail, token, now, origin, from, api);
    MatchedTokenVerifiesOnlyItsRow(s.rows, token, |rows|);
  }

  /**
   * An address typed with whitespace around it is the stored address: if a
   * subscription already holds it, the form is shown again and nothing is
   * saved or mailed.
   */
  lemma PaddedDuplicateRerenders(rows: seq<AlertSubscription>, email: string, before: string, after: string,
                                 location: string, isEmail: string -> bool, token: string, now: DateTime,
                                 origin: string, from: string, api: MailApi, i: nat)
    requires AllSpace(before) && AllSpace(after)
    requires i < |rows| && rows[i].email == Strip(email)
    ensures Subscribe(rows, before + email + after, location, isEmail, token, now, origin, from, api)
         == SubscribeResult(Rerender, rows, [])
  {
    StripIgnoresPadding(email, before, after);
  }
}
