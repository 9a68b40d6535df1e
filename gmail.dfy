/**
 * The Gmail client (lib/gmail/client.ts): the raw message `sendEmail` builds
 * and encodes for the Gmail API, the expiry check and token refresh of
 * `getValidAccessToken`, and `checkGmailConnection`.
 *
 * The `gmail_tokens` table is a map from user id to the stored row, the shared
 * OAuth client's credentials are a field, and every `messages.send` request
 * the client issues is recorded in `outbox`. The database, the OAuth library
 * and the Gmail API answer through parameters.
 */
module Gmail {
  import opened Wrappers
  import opened Text
  import opened Base64
  import Utf8

  const ContentTypeLine: string := "Content-Type: text/plain; charset=utf-8"
  const ToPrefix: string := "To: "
  const SubjectPrefix: string := "Subject: "

  const NotConnectedMessage: string := "Gmail not connected"
  const SendFailedMessage: string := "Failed to send email via Gmail"

  // ---------------------------------------------------------------------------
  // The raw message and its encoding.

  /** The message `sendEmail` builds: two headers, the content type, an empty line and the body, joined with a bare LF. */
  function RawMessage(to: string, subject: string, body: string): string
  {
    Join([ToPrefix + to, SubjectPrefix + subject, ContentTypeLine, "", body], "\n")
  }

  /** The parts a reader of a raw message recovers. */
  datatype RawParts = RawParts(to: string, subject: string, body: string)

  /**
   * Reading a raw message the way a mail reader does: the first line is the
   * `To` header, the second the `Subject` header, the third the content type,
   * the fourth is empty, and everything after it is the body.
   */
  function ParseRaw(raw: string): Option<RawParts>
  {
    var lines := Split(raw, '\n');
    if |lines| >= 5 && StartsWith(lines[0], ToPrefix) && StartsWith(lines[1], SubjectPrefix)
       && lines[2] == ContentTypeLine && lines[3] == ""
    then Some(RawParts(lines[0][|ToPrefix|..], lines[1][|SubjectPrefix|..], Join(lines[4..], "\n")))
    else None
  }

  /** The raw message lines: the headers, the empty line, then the body's own lines. */
  lemma RawMessageLines(to: string, subject: string, body: string)
    ensures Split(RawMessage(to, subject, body), '\n')
      == Split(ToPrefix + to, '\n') + (Split(SubjectPrefix + subject, '\n') + ([ContentTypeLine] + ([""] + Split(body, '\n'))))
  {
    var h0, h1 := ToPrefix + to, SubjectPrefix + subject;
    JoinFive(h0, h1, ContentTypeLine, "", body);
    SplitFive(h0, h1, ContentTypeLine, "", body);
    SplitFirstPiece("", '\n');
    ContentTypeIsOneLine();
  }

  lemma ContentTypeIsOneLine()
    ensures Split(ContentTypeLine, '\n') == [ContentTypeLine]
  {
    assert forall i :: 0 <= i < |ContentTypeLine| ==> ContentTypeLine[i] != '\n';
    SplitFirstPiece(ContentTypeLine, '\n');
  }

  lemma JoinFive(a: string, b: string, c: string, d: string, e: string)
    ensures Join([a, b, c, d, e], "\n") == a + "\n" + (b + "\n" + (c + "\n" + (d + "\n" + e)))
  {
    assert Join([e], "\n") == e;
    assert [d, e][1..] == [e];
    assert Join([d, e], "\n") == d + "\n" + e;
    assert [c, d, e][1..] == [d, e];
    assert Join([c, d, e], "\n") == c + "\n" + (d + "\n" + e);
    assert [b, c, d, e][1..] == [c, d, e];
    assert Join([b, c, d, e], "\n") == b + "\n" + (c + "\n" + (d + "\n" + e));
    assert [a, b, c, d, e][1..] == [b, c, d, e];
  }

  lemma SplitFive(a: string, b: string, c: string, d: string, e: string)
    ensures Split(a + "\n" + (b + "\n" + (c + "\n" + (d + "\n" + e))), '\n')
      == Split(a, '\n') + (Split(b, '\n') + (Split(c, '\n') + (Split(d, '\n') + Split(e, '\n'))))
  {
    var t3 := d + "\n" + e;
    var t2 := c + "\n" + t3;
    var t1 := b + "\n" + t2;
    SplitAppend(d, e, '\n');
    SplitAppend(c, t3, '\n');
    SplitAppend(b, t2, '\n');
    SplitAppend(a, t1, '\n');
  }

  /**
   * A reader gets back exactly the recipient, subject and body that were put
   * in if and only if neither header value contains a line feed; a line feed
   * in either one ends that header early (and can start another).
   */
  lemma ParseRawMessage(to: string, subject: string, body: string)
    ensures ParseRaw(RawMessage(to, subject, body)) == Some(RawParts(to, subject, body))
        <==> '\n' !in to && '\n' !in subject
  {
    if '\n' !in to && '\n' !in subject {
      ParseRawWellFormed(to, subject, body);
    } else {
      ParseRawBroken(to, subject, body);
    }
  }

  lemma ParseRawWellFormed(to: string, subject: string, body: string)
    requires '\n' !in to && '\n' !in subject
    ensures ParseRaw(RawMessage(to, subject, body)) == Some(RawParts(to, subject, body))
  {
    var h0, h1 := ToPrefix + to, SubjectPrefix + subject;
    RawMessageLines(to, subject, body);
    NoNewlineAfterPrefix(ToPrefix, to);
    NoNewlineAfterPrefix(SubjectPrefix, subject);
    SplitFirstPiece(h0, '\n');
    SplitFirstPiece(h1, '\n');
    JoinSplit(body, '\n');
    ParseRawOfLines(RawMessage(to, subject, body), to, subject, Split(body, '\n'));
  }

  lemma NoNewlineAfterPrefix(prefix: string, s: string)
    requires '\n' !in prefix
    ensures '\n' in s <==> '\n' in prefix + s
  {
    assert (prefix + s)[|prefix|..] == s;
  }

  /** A text whose lines are the two headers, the content type, an empty line and then some body lines reads as those parts. */
  lemma ParseRawOfLines(raw: string, to: string, subject: string, bodyLines: seq<string>)
    requires |bodyLines| >= 1
    requires Split(raw, '\n') == [ToPrefix + to] + ([SubjectPrefix + subject] + ([ContentTypeLine] + ([""] + bodyLines)))
    ensures ParseRaw(raw) == Some(RawParts(to, subject, Join(bodyLines, "\n")))
  {
    var lines := Split(raw, '\n');
    assert lines[0] == ToPrefix + to && lines[1] == SubjectPrefix + subject;
    assert lines[2] == ContentTypeLine && lines[3] == "" && lines[4..] == bodyLines;
    assert StartsWith(lines[0], ToPrefix) && lines[0][|ToPrefix|..] == to;
    assert StartsWith(lines[1], SubjectPrefix) && lines[1][|SubjectPrefix|..] == subject;
  }

  /** A line feed in the recipient or the subject cuts its header line short, so the reader gets other parts. */
  lemma ParseRawBroken(to: string, subject: string, body: string)
    requires '\n' in to || '\n' in subject
    ensures ParseRaw(RawMessage(to, subject, body)) != Some(RawParts(to, subject, body))
  {
    var raw := RawMessage(to, subject, body);
    var h0, h1 := ToPrefix + to, SubjectPrefix + subject;
    ParsedLineLengths(raw, to, subject, body);
    RawMessageLines(to, subject, body);
    NoNewlineAfterPrefix(ToPrefix, to);
    NoNewlineAfterPrefix(SubjectPrefix, subject);
    SplitFirstPiece(h0, '\n');
    SplitFirstPiece(h1, '\n');
    if '\n' in to {
      assert |Split(raw, '\n')[0]| < |h0|;
    } else {
      assert Split(raw, '\n')[1] == Split(h1, '\n')[0];
    }
  }

  /** What a successful read returns fixes the lengths of the first two lines. */
  lemma ParsedLineLengths(raw: string, to: string, subject: string, body: string)
    ensures ParseRaw(raw) == Some(RawParts(to, subject, body)) ==>
      |Split(raw, '\n')| >= 5
      && |Split(raw, '\n')[0]| == |ToPrefix| + |to| && |Split(raw, '\n')[1]| == |SubjectPrefix| + |subject|
  {
  }

  /** The `raw` field of the send request: the UTF-8 bytes of the raw message, base64url-encoded without padding. */
  function EncodedRaw(to: string, subject: string, body: string): string
  {
    EncodeUrl(Utf8.Encode(RawMessage(to, subject, body)))
  }

  /**
   * The encoded message uses neither `+` nor `/` nor `=`, and re-padding,
   * mapping back to the standard alphabet and decoding gives the message's
   * UTF-8 bytes, which decode to the message text.
   */
  lemma EncodedRawRoundTrip(to: string, subject: string, body: string)
    ensures var e := EncodedRaw(to, subject, body);
      forall i :: 0 <= i < |e| ==> e[i] != '+' && e[i] != '/' && e[i] != '='
    ensures DecodeUrl(EncodedRaw(to, subject, body)) == Some(Utf8.Encode(RawMessage(to, subject, body)))
    ensures Utf8.Decode(Utf8.Encode(RawMessage(to, subject, body))) == Some(RawMessage(to, subject, body))
  {
    var bytes := Utf8.Encode(RawMessage(to, subject, body));
    EncodeUrlAlphabet(bytes);
    DecodeUrlEncodeUrl(bytes);
    Utf8.DecodeEncode(RawMessage(to, subject, body));
  }

  // ---------------------------------------------------------------------------
  // Tokens.

  /** A `gmail_tokens` row; `expiresAt` is the stored expiry as a point in time. */
  datatype TokenRow = TokenRow(accessToken: string, refreshToken: string, expiresAt: int)

  /**
   * What the OAuth library's `refreshAccessToken` returns. `expiryDate` is None
   * when the library gives no `expiry_date`; a `null` one is Some(0), the
   * point `new Date(null)` stands for.
   */
  datatype Refreshed = Refreshed(accessToken: string, expiryDate: Option<int>)

  /** The credentials set on the shared OAuth client. */
  datatype Credentials = Credentials(accessToken: Option<string>, refreshToken: Option<string>)

  /**
   * How `getValidAccessToken` can fail: no row, a refresh that rejects, or a
   * refresh whose expiry `toISOString()` cannot format and throws a RangeError.
   */
  datatype TokenError = NotConnected | RefreshFailed | InvalidExpiry

  /** The largest distance from the epoch, in milliseconds, that a JavaScript `Date` can hold. */
  const MaxTimeValue: int := 8_640_000_000_000_000

  /**
   * `new Date(expiry_date!).toISOString()` succeeds: there is an expiry, and
   * it lies within the range of a `Date` (outside it, or without one, the
   * date is invalid and formatting it throws).
   */
  predicate Formattable(renewed: Refreshed)
  {
    renewed.expiryDate.Some? && -MaxTimeValue <= renewed.expiryDate.value <= MaxTimeValue
  }

  /** The result of `messages.send`. */
  datatype SentIds = SentIds(messageId: string, threadId: string)

  /** The row the `select ... single()` query yields: none when the query errs or finds no row. */
  function StoredRow(tokens: map<string, TokenRow>, userId: string, queryFails: bool): (r: Option<TokenRow>)
    ensures r.Some? <==> !queryFails && userId in tokens
    ensures r.Some? ==> r.value == tokens[userId]
  {
    if queryFails || userId !in tokens then None else Some(tokens[userId])
  }

  /** The stored token is used as it is while its expiry lies strictly in the future. */
  predicate StillValid(row: TokenRow, now: int)
  {
    now < row.expiresAt
  }

  /** The row after a refresh: the new access token and expiry, the same refresh token. */
  function RefreshedRow(row: TokenRow, renewed: Refreshed): (r: TokenRow)
    requires renewed.expiryDate.Some?
    ensures r.refreshToken == row.refreshToken
    ensures r.accessToken == renewed.accessToken && r.expiresAt == renewed.expiryDate.value
  {
    TokenRow(renewed.accessToken, row.refreshToken, renewed.expiryDate.value)
  }

  /**
   * A stored refresh whose new expiry lies after `now` is not refreshed again
   * at `now`: the next lookup returns the new token as it is.
   */
  lemma RefreshHoldsUntilExpiry(row: TokenRow, renewed: Refreshed, now: int, later: int)
    requires renewed.expiryDate.Some? && now < renewed.expiryDate.value
    ensures StillValid(RefreshedRow(row, renewed), now)
    ensures StillValid(RefreshedRow(row, renewed), later) <==> later < renewed.expiryDate.value
  {
  }

  class GmailClient {
    /** The `gmail_tokens` table, by user id. */
    var tokens: map<string, TokenRow>
    /** The credentials last set on the shared OAuth client. */
    var credentials: Credentials
    /** The `raw` field of every send request issued, in order. */
    var outbox: seq<string>

    constructor(tokens: map<string, TokenRow>)
      ensures this.tokens == tokens
      ensures credentials == Credentials(None, None) && outbox == []
    {
      this.tokens := tokens;
      credentials := Credentials(None, None);
      outbox := [];
    }

    /**
     * `getValidAccessToken`: no row (or a query error) fails with
     * `NotConnected`; a row still valid at `now` yields its stored token and
     * changes nothing; an expired row (expiry at or before `now`) sets the
     * row's refresh token on the client and asks for a refresh, which either
     * fails (`refresh` is None) or yields the new token. A new token without
     * a formattable expiry fails when the expiry is formatted, before the write; otherwise
     * the row is updated when the database write succeeds (`stored`).
     */
    method GetValidAccessToken(userId: string, now: int, queryFails: bool, refresh: Option<Refreshed>, stored: bool)
      returns (r: Result<string, TokenError>)
      modifies this
      ensures outbox == old(outbox)
      ensures r.Failure? && r.error == NotConnected <==> StoredRow(old(tokens), userId, queryFails).None?
      ensures StoredRow(old(tokens), userId, queryFails).None? ==>
        tokens == old(tokens) && credentials == old(credentials)
      ensures StoredRow(old(tokens), userId, queryFails).Some? ==>
        var row := old(tokens)[userId];
        if StillValid(row, now) then
          r == Success(row.accessToken) && tokens == old(tokens) && credentials == old(credentials)
        else
          credentials == Credentials(None, Some(row.refreshToken)) &&
          match refresh
          case None => r == Failure(RefreshFailed) && tokens == old(tokens)
          case Some(renewed) =>
            if !Formattable(renewed) then
              r == Failure(InvalidExpiry) && tokens == old(tokens)
            else
              r == Success(renewed.accessToken) &&
              tokens == if stored then old(tokens)[userId := RefreshedRow(row, renewed)] else old(tokens)
    {
      var row := StoredRow(tokens, userId, queryFails);
      if row.None? {
        return Failure(NotConnected);
      }
      var data := row.value;
      if !StillValid(data, now) {
        credentials := Credentials(None, Some(data.refreshToken));
        if refresh.None? {
          return Failure(RefreshFailed);
        }
        var renewed := refresh.value;
        if !Formattable(renewed) {
          return Failure(InvalidExpiry);
        }
        if stored {
          tokens := tokens[userId := RefreshedRow(data, renewed)];
        }
        return Success(renewed.accessToken);
      }
      return Success(data.accessToken);
    }

    /**
     * `sendEmail`: any failure, whether getting the token or sending
     * (`response` is None), is reported as the one message
     * "Failed to send email via Gmail". Once a token is obtained the client's
     * credentials become that token alone and one send request carrying the
     * encoded raw message is issued.
     */
    method SendEmail(userId: string, to: string, subject: string, body: string, now: int,
                     queryFails: bool, refresh: Option<Refreshed>, stored: bool, response: Option<SentIds>)
      returns (r: Result<SentIds, string>)
      modifies this
      ensures r.Failure? ==> r.error == SendFailedMessage
      ensures var row := StoredRow(old(tokens), userId, queryFails);
        var renews := refresh.Some? && Formattable(refresh.value);
        var gotToken := row.Some? && (StillValid(row.value, now) || renews);
        (r.Success? <==> gotToken && response.Some?) &&
        (r.Success? ==> r.value == response.value) &&
        (gotToken ==>
          var token := if StillValid(row.value, now) then row.value.accessToken else refresh.value.accessToken;
          outbox == old(outbox) + [EncodedRaw(to, subject, body)] && credentials == Credentials(Some(token), None)) &&
        (!gotToken ==>
          outbox == old(outbox) &&
          credentials == if row.Some? && !StillValid(row.value, now)
                         then Credentials(None, Some(row.value.refreshToken)) else old(credentials)) &&
        (tokens == if row.Some? && !StillValid(row.value, now) && renews && stored
                   then old(tokens)[userId := RefreshedRow(row.value, refresh.value)] else old(tokens))
    {
      var token := GetValidAccessToken(userId, now, queryFails, refresh, stored);
      if token.Failure? {
        return Failure(SendFailedMessage);
      }
      credentials := Credentials(Some(token.value), None);
      outbox := outbox + [EncodedRaw(to, subject, body)];
      if response.None? {
        return Failure(SendFailedMessage);
      }
      return Success(response.value);
    }

    /**
     * `checkGmailConnection`: connected exactly when the lookup neither throws
     * nor errs and finds a row, which is exactly when `getValidAccessToken`
     * would not fail with `NotConnected`.
     */
    method CheckGmailConnection(userId: string, clientThrows: bool, queryFails: bool) returns (connected: bool)
      ensures connected <==> !clientThrows && StoredRow(tokens, userId, queryFails).Some?
      ensures connected ==> userId in tokens
    {
      if clientThrows {
        return false;
      }
      var row := StoredRow(tokens, userId, queryFails);
      return row.Some?;
    }
  }
}
