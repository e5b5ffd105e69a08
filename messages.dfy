/**
 * The message store: saving a chat message and reading a page of a channel's history,
 * newest messages first from the database and handed back oldest first.
 */
module Messages {
  import opened Wrappers
  import opened Sequences
  import opened Protocol
  import opened Tables

  /** `getChannelMessages`'s default page size. */
  const DefaultLimit := 50

  /** The row `saveMessage` inserts for a message. */
  function MessageRowOf(m: ChatMessage): (r: MessageRow)
    ensures RowToMessage(r) == m
    ensures r.id == m.id && r.channelId == m.channelId && r.createdAt == m.createdAt
  {
    MessageRow(m.id, m.channelId, m.senderPublicKey, m.content, m.signature, m.nonce,
               if m.hasAttachment then 1 else 0, m.createdAt)
  }

  /** `rowToMessage`. */
  function RowToMessage(row: MessageRow): ChatMessage {
    ChatMessage(row.id, row.channelId, row.senderPublicKey, row.content, row.signature,
                row.nonce, row.hasAttachment == 1, row.createdAt)
  }

  function MapRows(rows: seq<MessageRow>): (r: seq<ChatMessage>)
    ensures |r| == |rows| && forall i :: 0 <= i < |rows| ==> r[i] == RowToMessage(rows[i])
  {
    seq(|rows|, i requires 0 <= i < |rows| => RowToMessage(rows[i]))
  }

  lemma MessageIdsAppend(rows: seq<MessageRow>, row: MessageRow)
    ensures MessageIds(rows + [row]) == MessageIds(rows) + {row.id}
  {
    assert forall r :: r in rows + [row] <==> r in rows || r == row;
  }

  /**
   * `saveMessage`: insert the message. The foreign key makes the insert throw when
   * the channel does not exist, and the primary key when the id is taken.
   */
  method SaveMessage(db: Database, m: ChatMessage) returns (r: Result<(), DbError>)
    requires db.Valid()
    modifies db`messages
    ensures db.Valid()
    ensures r == Err(ForeignKeyFailed) <==> m.channelId !in ChannelIds(db.channels)
    ensures r == Err(PrimaryKeyFailed) <==>
      m.channelId in ChannelIds(db.channels) && m.id in MessageIds(old(db.messages))
    ensures r.Err? <==> m.channelId !in ChannelIds(db.channels) || m.id in MessageIds(old(db.messages))
    ensures r.Err? ==> db.messages == old(db.messages)
    ensures r.Ok? ==> db.messages == old(db.messages) + [MessageRowOf(m)]
  {
    if m.channelId !in ChannelIds(db.channels) {
      return Err(ForeignKeyFailed);
    }
    if m.id in MessageIds(db.messages) {
      return Err(PrimaryKeyFailed);
    }
    var row := MessageRowOf(m);
    forall i | 0 <= i < |db.messages|
      ensures MessageKey(db.messages[i]) != MessageKey(row)
    {
      assert db.messages[i] in db.messages;
    }
    AppendUnique(db.messages, row, MessageKey);
    MessageIdsAppend(db.messages, row);
    db.messages := db.messages + [row];
    return Ok(());
  }

  /** The two parameters of the history query. */
  datatype HistoryQuery = HistoryQuery(channelId: string, before: Option<int>)

  /** `before` is used only when truthy, so `0` is the same as no bound. */
  predicate HasBound(before: Option<int>) {
    before.Some? && before.value != 0
  }

  /** The `WHERE` clause of the history query. */
  predicate Matches(row: MessageRow, q: HistoryQuery) {
    row.channelId == q.channelId && (HasBound(q.before) ==> row.createdAt < q.before.value)
  }

  /** `ORDER BY created_at DESC`, as an ascending key. */
  function NewestFirst(row: MessageRow): int {
    -row.createdAt
  }

  /** The rows the query returns, newest first; a negative `LIMIT` is no limit. */
  function Page(rows: seq<MessageRow>, channelId: string, limit: int, before: Option<int>): seq<MessageRow> {
    Take(SortBy(FilterWith(rows, Matches, HistoryQuery(channelId, before)), NewestFirst), limit)
  }

  /** `getChannelMessages`: the page, oldest first. */
  function GetChannelMessages(rows: seq<MessageRow>, channelId: string, limit: int, before: Option<int>): seq<ChatMessage> {
    MapRows(Reverse(Page(rows, channelId, limit, before)))
  }

  /** Every row of the page matches the query, and the page runs from newest to oldest. */
  lemma PageMatches(rows: seq<MessageRow>, channelId: string, limit: int, before: Option<int>)
    ensures var p := Page(rows, channelId, limit, before);
      && (forall i :: 0 <= i < |p| ==> Matches(p[i], HistoryQuery(channelId, before)))
      && (forall i, j :: 0 <= i < j < |p| ==> p[j].createdAt <= p[i].createdAt)
  {
    var q := FilterWith(rows, Matches, HistoryQuery(channelId, before));
    var s := SortBy(q, NewestFirst);
    var p := Page(rows, channelId, limit, before);
    forall i | 0 <= i < |p|
      ensures Matches(p[i], HistoryQuery(channelId, before))
    {
      assert s[i] in multiset(s);
      assert s[i] in q;
    }
    forall i, j | 0 <= i < j < |p|
      ensures p[j].createdAt <= p[i].createdAt
    {
      assert NewestFirst(s[i]) <= NewestFirst(s[j]);
    }
  }

  /**
   * A page holds only messages of the channel, older than a truthy `before`, at most
   * `limit` of them and all of them when fewer qualify, oldest first.
   */
  lemma HistoryShape(rows: seq<MessageRow>, channelId: string, limit: int, before: Option<int>)
    ensures var r := GetChannelMessages(rows, channelId, limit, before);
      var q := FilterWith(rows, Matches, HistoryQuery(channelId, before));
      && (limit >= 0 ==> |r| == if |q| <= limit then |q| else limit)
      && (limit < 0 ==> |r| == |q|)
      && (forall i :: 0 <= i < |r| ==> r[i].channelId == channelId)
      && (forall i :: 0 <= i < |r| && HasBound(before) ==> r[i].createdAt < before.value)
      && (forall i, j :: 0 <= i < j < |r| ==> r[i].createdAt <= r[j].createdAt)
  {
    PageMatches(rows, channelId, limit, before);
    var p := Page(rows, channelId, limit, before);
    var r := GetChannelMessages(rows, channelId, limit, before);
    assert forall i :: 0 <= i < |r| ==> r[i] == RowToMessage(p[|p| - 1 - i]);
  }

  /**
   * The page is the newest of the matching messages: a matching message left off the
   * page is no newer than any message on it.
   */
  lemma HistoryIsNewest(rows: seq<MessageRow>, channelId: string, limit: int, before: Option<int>, x: MessageRow)
    requires x in rows && Matches(x, HistoryQuery(channelId, before))
    requires x !in Page(rows, channelId, limit, before)
    ensures forall y :: y in Page(rows, channelId, limit, before) ==> x.createdAt <= y.createdAt
  {
    var q := FilterWith(rows, Matches, HistoryQuery(channelId, before));
    var s := SortBy(q, NewestFirst);
    var p := Page(rows, channelId, limit, before);
    assert x in multiset(q);
    assert x in s;
    var k :| 0 <= k < |s| && s[k] == x;
    TakeKeepsSmallest(s, NewestFirst, limit, k);
  }

  /** A saved message is on the channel's unlimited, unbounded history. */
  lemma SavedIsListed(rows: seq<MessageRow>, m: ChatMessage)
    ensures m in GetChannelMessages(rows + [MessageRowOf(m)], m.channelId, -1, None)
  {
    var all := rows + [MessageRowOf(m)];
    var s := SortBy(FilterWith(all, Matches, HistoryQuery(m.channelId, None)), NewestFirst);
    var p := Page(all, m.channelId, -1, None);
    assert p == s;
    assert MessageRowOf(m) in all;
    assert MessageRowOf(m) in multiset(s);
    var k :| 0 <= k < |p| && p[k] == MessageRowOf(m);
    assert GetChannelMessages(all, m.channelId, -1, None)[|p| - 1 - k] == m;
  }
}
