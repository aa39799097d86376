/** `app/api/admin/feedback.csv/route.ts`: `GET /api/admin/feedback.csv`,
    behind Basic authentication, answers with every feedback entry as one CSV
    line under a header line. */
module FeedbackCsv {
  import opened Common
  import opened JsonText
  import opened Admin
  import opened Feedback

  const Header := "score,comment,createdAt,token"

  /** `entry.token || ''` */
  function TokenText(token: Option<string>): string
  {
    if token.Some? then token.value else ""
  }

  /** The line of one entry: the score as `String(score)` writes it (the
      parameter `numberText`), the comment as a JSON string literal, the
      creation time and the token, joined by commas. */
  function Row(entry: FeedbackEntry, numberText: real -> string): string
  {
    Join([numberText(entry.score), JsonQuote(entry.comment), entry.createdAt, TokenText(entry.token)], ",")
  }

  function Rows(entries: seq<FeedbackEntry>, numberText: real -> string): (rows: seq<string>)
    ensures |rows| == |entries|
    ensures forall k :: 0 <= k < |entries| ==> rows[k] == Row(entries[k], numberText)
  {
    seq(|entries|, k requires 0 <= k < |entries| => Row(entries[k], numberText))
  }

  /** `[header, ...rows].join('\n')` */
  function Csv(entries: seq<FeedbackEntry>, numberText: real -> string): string
  {
    Join([Header] + Rows(entries, numberText), "\n")
  }

  /** Fields that cannot break a line: the ones written as they are carry
      no line feed. The comment needs no such condition. */
  predicate OneLine(entry: FeedbackEntry, numberText: real -> string)
  {
    '\n' !in numberText(entry.score) && '\n' !in entry.createdAt && '\n' !in TokenText(entry.token)
  }

  /** No row contains a line feed: the comment, whatever it holds, is
      escaped by `JSON.stringify`. */
  lemma RowIsOneLine(entry: FeedbackEntry, numberText: real -> string)
    requires OneLine(entry, numberText)
    ensures '\n' !in Row(entry, numberText)
  {
    var q := JsonQuote(entry.comment);
    assert '\n' !in q by {
      forall k | 0 <= k < |q|
        ensures q[k] != '\n'
      {
      }
    }
    JoinWithout([numberText(entry.score), q, entry.createdAt, TokenText(entry.token)], ",", '\n');
  }

  /** Splitting the CSV at line feeds gives the header and then each
      entry's row, in the order of the list. */
  lemma CsvLines(entries: seq<FeedbackEntry>, numberText: real -> string)
    requires forall k :: 0 <= k < |entries| ==> OneLine(entries[k], numberText)
    ensures Split(Csv(entries, numberText), '\n') == [Header] + Rows(entries, numberText)
  {
    var lines := [Header] + Rows(entries, numberText);
    forall k | 0 <= k < |lines|
      ensures '\n' !in lines[k]
    {
      if k > 0 {
        RowIsOneLine(entries[k - 1], numberText);
      }
    }
    SplitJoin(lines, '\n');
  }

  /** A row whose fields carry no comma splits at commas into its four
      fields, and the second one reads back as the comment. */
  lemma RowFields(entry: FeedbackEntry, numberText: real -> string)
    requires ',' !in numberText(entry.score) && ',' !in entry.comment
    requires ',' !in entry.createdAt && ',' !in TokenText(entry.token)
    ensures var fields := Split(Row(entry, numberText), ',');
      && fields == [numberText(entry.score), JsonQuote(entry.comment), entry.createdAt, TokenText(entry.token)]
      && JsonUnquote(fields[1]) == Some(entry.comment)
  {
    var q := JsonQuote(entry.comment);
    EscapeKeepsCommas(entry.comment);
    assert q == "\"" + Escape(entry.comment) + "\"";
    SplitJoin([numberText(entry.score), q, entry.createdAt, TokenText(entry.token)], ',');
    QuoteRoundTrip(entry.comment);
  }

  /** The reply: 401 with a Basic challenge, or the CSV file. */
  datatype CsvReply = Unauthorized | CsvFile(text: string)

  /** `GET`: the credentials as `checkBasicAuth` takes them, `file` what
      `data/feedback.json` would give and `numberText` the number formatting. */
  method Get(store: FeedbackStore, adminUser: string, adminPass: string, authorization: Option<string>,
             decode: string -> string, file: Option<seq<FeedbackEntry>>, numberText: real -> string)
    returns (reply: CsvReply)
    modifies store
    ensures !CheckBasicAuth(adminUser, adminPass, authorization, decode) ==>
      reply == Unauthorized && store.cache == old(store.cache)
    ensures CheckBasicAuth(adminUser, adminPass, authorization, decode) ==>
      && reply == CsvFile(Csv(Current(old(store.cache), file), numberText))
      && store.cache == Some(Current(old(store.cache), file))
  {
    if !CheckBasicAuth(adminUser, adminPass, authorization, decode) {
      return Unauthorized;
    }
    var feedback := store.ListFeedback(file);
    var rows := seq(|feedback|, k requires 0 <= k < |feedback| => Row(feedback[k], numberText));
    reply := CsvFile(Join([Header] + rows, "\n"));
  }
}
