/**
 * The orchestrator `main`: for every listed item, oldest first, skip it if
 * it was published within the window, else fetch its tags, publish it (in
 * production only) and record it.
 */
module Pipeline {
  import opened Wrappers
  import opened Hashtag
  import opened Listing
  import opened Records
  import opened Telegram

  /** The value of `NODE_ENV`: `production`, `test`, or anything else. */
  datatype Mode = Production | Test | Development

  /** The chat ids the configuration provides. */
  datatype Channels = Channels(publishChannelId: int, publishSubChannelId: int, botOwnerId: int)

  /** The tag that sends an item to the secondary channel as well. */
  const ScaleFigureTag: string := "#比例人形"

  /** Why a run ends with a rejected promise. */
  datatype Fault =
    | ListingFailed
    | TagFetchFailed(hobbyId: int)
    | FallbackFailed(hobbyId: int, error: Response)
    | StorageFailed(hobbyId: int)

  /** The label texts of an item's detail page, or `None` when the request or the parse fails. */
  type TagFetcher = int -> Option<seq<string>>

  /**
   * What is fixed for one run: the mode, the chat ids, the clock reading (in
   * milliseconds), the detail-page oracle, the Bot API's answers, the
   * errors SQLite reports and the letter class.
   */
  datatype Env = Env(
    mode: Mode,
    channels: Channels,
    nowMs: int,
    fetchTags: TagFetcher,
    respond: Responder,
    storageFails: StorageOracle,
    isLetter: LetterTest)

  /**
   * The state of a run: the table, every Bot API call so far, the ids whose
   * detail pages were fetched, `post_count`, and the fault that ended the run.
   */
  datatype RunState = RunState(rows: seq<Row>, calls: seq<Call>, fetched: seq<int>, postCount: int, fault: Option<Fault>)

  function Start(rows: seq<Row>, calls: seq<Call>): RunState {
    RunState(rows, calls, [], 0, None)
  }

  /** `is_prod ? publish_channel_id : bot_owner_id`. */
  function PrimaryChannel(env: Env): int {
    if env.mode == Production then env.channels.publishChannelId else env.channels.botOwnerId
  }

  /** `is_prod ? publish_sub_channel_id : bot_owner_id`. */
  function SecondaryChannel(env: Env): int {
    if env.mode == Production then env.channels.publishSubChannelId else env.channels.botOwnerId
  }

  /** After one publication: go on with the item, or leave it (a `continue`, or a thrown error). */
  datatype Flow = Proceed(state: RunState) | Leave(state: RunState)

  function Publish(env: Env, s: RunState, item: InfoItem, chatId: int, tags: seq<string>): Flow {
    var a := PublishAttempt(item, chatId, tags, env.respond, s.calls);
    var s' := s.(calls := s.calls + a.calls);
    match a.outcome
    case Thrown(error) => Leave(s'.(fault := Some(FallbackFailed(item.hobbyId, error))))
    case Returned(code) => if code < 0 then Leave(s') else Proceed(s')
  }

  /** The row `create_publish_record` writes for `item`. */
  function NewRow(env: Env, item: InfoItem): Row {
    Row(item.hobbyId, item.infoType, GetTimestamp(env.nowMs, 0))
  }

  /** `create_publish_record`: the row is appended, or the insert's error ends the run. */
  function Record(env: Env, s: RunState, item: InfoItem): RunState {
    if env.storageFails(Insert(NewRow(env, item)), s.rows) then s.(fault := Some(StorageFailed(item.hobbyId)))
    else s.(rows := s.rows + [NewRow(env, item)])
  }

  /** The publications of the production branch: to the primary chat, then to the secondary chat if tagged. */
  function Announce(env: Env, s: RunState, item: InfoItem, tags: seq<string>): Flow {
    match Publish(env, s, item, PrimaryChannel(env), tags)
    case Leave(s2) => Leave(s2)
    case Proceed(s2) =>
      if ScaleFigureTag !in tags then Proceed(s2) else Publish(env, s2, item, SecondaryChannel(env), tags)
  }

  /** The production branch of an iteration: the publications, `post_count` and the row. */
  function Deliver(env: Env, s: RunState, item: InfoItem, tags: seq<string>): RunState {
    match Announce(env, s, item, tags)
    case Leave(s3) => s3
    case Proceed(s3) => Record(env, s3.(postCount := s3.postCount + 1), item)
  }

  /** The existence query for `item` on the table `rows` reports no error. */
  predicate QuerySucceeds(env: Env, rows: seq<Row>, item: InfoItem) {
    !env.storageFails(Select(item.hobbyId, item.infoType), rows)
  }

  /** One iteration of the loop of `main`. */
  function Step(env: Env, s: RunState, item: InfoItem): RunState {
    if s.fault.Some? then s
    else if !QuerySucceeds(env, s.rows, item) then s.(fault := Some(StorageFailed(item.hobbyId)))
    else if RecentlyPublished(s.rows, item.hobbyId, item.infoType, env.nowMs) then s
    else
      var s1 := s.(fetched := s.fetched + [item.hobbyId]);
      match env.fetchTags(item.hobbyId)
      case None => s1.(fault := Some(TagFetchFailed(item.hobbyId)))
      case Some(labels) =>
        var tags := TagList(env.isLetter, labels);
        if env.mode != Production then Record(env, s1, item) else Deliver(env, s1, item, tags)
  }

  /** The loop of `main` over `items`, from the state `s0`. */
  function RunItems(env: Env, s0: RunState, items: seq<InfoItem>): RunState {
    if |items| == 0 then s0 else Step(env, RunItems(env, s0, items[..|items| - 1]), items[|items| - 1])
  }

  /** The settled value of `main()`: `post_count`, or the error it rejects with. */
  datatype RunResult = Finished(postCount: int) | Failed(fault: Fault)

  function ResultOf(s: RunState): RunResult {
    if s.fault.Some? then Failed(s.fault.value) else Finished(s.postCount)
  }

  /** A run that met a fault does nothing more. */
  lemma {:induction false} FaultIsFinal(env: Env, s0: RunState, items: seq<InfoItem>, i: nat)
    requires i <= |items|
    requires RunItems(env, s0, items[..i]).fault.Some?
    ensures RunItems(env, s0, items) == RunItems(env, s0, items[..i])
  {
    if i < |items| {
      var n := |items| - 1;
      assert items[..n][..i] == items[..i];
      FaultIsFinal(env, s0, items[..n], i);
      assert items[..|items|] == items;
    } else {
      assert items[..i] == items;
    }
  }

  /**
   * One publication inside the loop, in the state `s` of the run: the Bot
   * API log and the fault afterwards are those of `Publish`, and `proceed`
   * tells whether the loop goes on with the item.
   */
  method PublishStep(env: Env, bot: TelegramBot, item: InfoItem, chatId: int, tags: seq<string>, ghost s: RunState)
    returns (proceed: bool, fault: Option<Fault>)
    requires bot.respond == env.respond && s.calls == bot.sent && s.fault == None
    modifies bot
    ensures var s' := s.(calls := bot.sent, fault := fault);
      Publish(env, s, item, chatId, tags) == if proceed then Proceed(s') else Leave(s')
    ensures proceed ==> fault == None
  {
    var outcome := PublishInfoToTelegram(bot, item, chatId, tags);
    match outcome
    case Thrown(error) =>
      proceed, fault := false, Some(FallbackFailed(item.hobbyId, error));
    case Returned(code) =>
      proceed, fault := code >= 0, None;
  }

  /** The publications of the production branch, proved against `Announce`. */
  method AnnounceStep(env: Env, bot: TelegramBot, item: InfoItem, tags: seq<string>, ghost s: RunState)
    returns (proceed: bool, fault: Option<Fault>)
    requires bot.respond == env.respond && s.calls == bot.sent && s.fault == None
    modifies bot
    ensures var s' := s.(calls := bot.sent, fault := fault);
      Announce(env, s, item, tags) == if proceed then Proceed(s') else Leave(s')
    ensures proceed ==> fault == None
  {
    proceed, fault := PublishStep(env, bot, item, PrimaryChannel(env), tags, s);
    if proceed && ScaleFigureTag in tags {
      ghost var s2 := s.(calls := bot.sent);
      proceed, fault := PublishStep(env, bot, item, SecondaryChannel(env), tags, s2);
    }
  }

  /** One iteration of the `for` loop of `main`, proved against `Step`. */
  method ProcessItem(env: Env, table: PublishedRecords, bot: TelegramBot, item: InfoItem, fetched: seq<int>, postCount: int)
    returns (fetched': seq<int>, postCount': int, fault: Option<Fault>)
    requires bot.respond == env.respond && table.fails == env.storageFails
    modifies table, bot
    ensures RunState(table.rows, bot.sent, fetched', postCount', fault)
      == Step(env, RunState(old(table.rows), old(bot.sent), fetched, postCount, None), item)
  {
    ghost var s := RunState(table.rows, bot.sent, fetched, postCount, None);
    fetched', postCount', fault := fetched, postCount, None;
    var recent := table.CheckRecordExistence(item.hobbyId, item.infoType, env.nowMs);
    if recent.None? {
      fault := Some(StorageFailed(item.hobbyId));
      return;
    }
    if recent.value {
      return;
    }
    fetched' := fetched' + [item.hobbyId];
    var labels := env.fetchTags(item.hobbyId);
    if labels.None? {
      fault := Some(TagFetchFailed(item.hobbyId));
      return;
    }
    var tags := TagList(env.isLetter, labels.value);
    if env.mode == Production {
      ghost var s1 := RunState(table.rows, bot.sent, fetched', postCount', None);
      var proceed;
      proceed, fault := AnnounceStep(env, bot, item, tags, s1);
      if !proceed {
        return;
      }
      postCount' := postCount' + 1;
    }
    var stored := table.CreatePublishRecord(item.hobbyId, item.infoType, env.nowMs);
    if !stored {
      fault := Some(StorageFailed(item.hobbyId));
    }
  }

  /**
   * The `for` loop of `main` over the items: the table, the Bot API log,
   * the fetched ids, `post_count` and the fault are those of `RunItems`.
   * An error thrown inside the loop ends it at once.
   */
  method ProcessItems(env: Env, table: PublishedRecords, bot: TelegramBot, items: seq<InfoItem>)
    returns (postCount: int, fault: Option<Fault>, fetched: seq<int>)
    requires bot.respond == env.respond && table.fails == env.storageFails
    modifies table, bot
    ensures var s := RunItems(env, Start(old(table.rows), old(bot.sent)), items);
      table.rows == s.rows && bot.sent == s.calls && fetched == s.fetched
      && postCount == s.postCount && fault == s.fault
  {
    ghost var s0 := Start(table.rows, bot.sent);
    postCount, fault, fetched := 0, None, [];
    var i := 0;
    while i < |items|
      invariant 0 <= i <= |items|
      invariant RunItems(env, s0, items[..i]) == RunState(table.rows, bot.sent, fetched, postCount, None)
      invariant fault == None
    {
      assert items[..i + 1][..i] == items[..i];
      fetched, postCount, fault := ProcessItem(env, table, bot, items[i], fetched, postCount);
      if fault.Some? {
        FaultIsFinal(env, s0, items, i + 1);
        return;
      }
      i := i + 1;
    }
    assert items[..|items|] == items;
  }

  /**
   * `main` after the table has been opened: fetch the listing (`None` when
   * the request or the parse fails), then run the loop over its items.
   */
  method RunPipeline(env: Env, table: PublishedRecords, bot: TelegramBot, listing: Option<seq<RawEntry>>)
    returns (result: RunResult, fetched: seq<int>)
    requires bot.respond == env.respond && table.fails == env.storageFails
    modifies table, bot
    ensures listing.None? ==>
      result == Failed(ListingFailed) && fetched == [] && table.rows == old(table.rows) && bot.sent == old(bot.sent)
    ensures listing.Some? ==>
      var s := RunItems(env, Start(old(table.rows), old(bot.sent)), FetchData(listing.value));
      result == ResultOf(s) && table.rows == s.rows && bot.sent == s.calls && fetched == s.fetched
  {
    if listing.None? {
      return Failed(ListingFailed), [];
    }
    var items := FetchData(listing.value);
    var postCount, fault;
    postCount, fault, fetched := ProcessItems(env, table, bot, items);
    result := if fault.Some? then Failed(fault.value) else Finished(postCount);
  }

  /** The chats of the photo posts among `calls`, in order. */
  function PhotoTargets(calls: seq<Call>): seq<int> {
    if |calls| == 0 then []
    else
      var last := calls[|calls| - 1];
      PhotoTargets(calls[..|calls| - 1]) + (if last.endpoint == SendPhoto then [last.chatId] else [])
  }

  lemma {:induction false} PhotoTargetsAppend(a: seq<Call>, b: seq<Call>)
    ensures PhotoTargets(a + b) == PhotoTargets(a) + PhotoTargets(b)
  {
    if |b| > 0 {
      var n := |b| - 1;
      assert (a + b)[..|a + b| - 1] == a + b[..n];
      PhotoTargetsAppend(a, b[..n]);
    } else {
      assert a + b == a;
    }
  }

  /** Each publication posts exactly one photo, to its own chat. */
  lemma PublishPhotoTarget(item: InfoItem, chatId: int, tags: seq<string>, respond: Responder, history: seq<Call>)
    ensures PhotoTargets(PublishAttempt(item, chatId, tags, respond, history).calls) == [chatId]
  {
    var calls := PublishAttempt(item, chatId, tags, respond, history).calls;
    if IsInvalidImage(respond(history + [calls[0]])) {
      assert calls[1].endpoint == SendMessage;
      assert calls[..1] == [calls[0]];
      assert calls[..1][..0] == [];
      assert PhotoTargets(calls[..1]) == [chatId];
    } else {
      assert calls[..0] == [];
    }
  }

  /** An item already published within the window costs no tag fetch, no publication and no row. */
  lemma StepSkipsRecent(env: Env, s: RunState, item: InfoItem)
    requires QuerySucceeds(env, s.rows, item)
    requires RecentlyPublished(s.rows, item.hobbyId, item.infoType, env.nowMs)
    ensures Step(env, s, item) == s
  {
  }

  /**
   * An item not published within the window whose iteration completes: its
   * tags were fetched once and it gets exactly one row stamped now. In
   * production the primary chat gets a photo post, the secondary chat one
   * as well exactly when the tags hold the scale-figure tag, and
   * `post_count` grows by 1 whatever the publications returned; in any other
   * mode there is no Bot API call and `post_count` stays.
   */
  lemma StepPublishesFresh(env: Env, s: RunState, item: InfoItem)
    requires s.fault == None
    requires !RecentlyPublished(s.rows, item.hobbyId, item.infoType, env.nowMs)
    requires Step(env, s, item).fault == None
    ensures var s' := Step(env, s, item);
      env.fetchTags(item.hobbyId).Some?
      && s'.rows == s.rows + [Row(item.hobbyId, item.infoType, GetTimestamp(env.nowMs, 0))]
      && s'.fetched == s.fetched + [item.hobbyId]
      && |s.calls| <= |s'.calls| && s'.calls[..|s.calls|] == s.calls
      && (env.mode == Production ==>
            s'.postCount == s.postCount + 1
            && PhotoTargets(s'.calls[|s.calls|..])
               == [env.channels.publishChannelId]
                  + (if ScaleFigureTag in TagList(env.isLetter, env.fetchTags(item.hobbyId).value)
                     then [env.channels.publishSubChannelId] else []))
      && (env.mode != Production ==> s'.calls == s.calls && s'.postCount == s.postCount)
  {
    if env.mode == Production {
      StepInProduction(env, s, item);
    }
  }

  lemma StepInProduction(env: Env, s: RunState, item: InfoItem)
    requires s.fault == None && env.mode == Production
    requires !RecentlyPublished(s.rows, item.hobbyId, item.infoType, env.nowMs)
    requires Step(env, s, item).fault == None
    ensures env.fetchTags(item.hobbyId).Some?
    ensures var s' := Step(env, s, item);
      var tags := TagList(env.isLetter, env.fetchTags(item.hobbyId).value);
      s'.rows == s.rows + [Row(item.hobbyId, item.infoType, GetTimestamp(env.nowMs, 0))]
      && s'.fetched == s.fetched + [item.hobbyId] && s'.postCount == s.postCount + 1
      && |s.calls| <= |s'.calls| && s'.calls[..|s.calls|] == s.calls
      && PhotoTargets(s'.calls[|s.calls|..])
         == [env.channels.publishChannelId] + (if ScaleFigureTag in tags then [env.channels.publishSubChannelId] else [])
  {
    var tags := TagList(env.isLetter, env.fetchTags(item.hobbyId).value);
    var s1 := s.(fetched := s.fetched + [item.hobbyId]);
    assert QuerySucceeds(env, s.rows, item);
    assert Step(env, s, item) == Deliver(env, s1, item, tags);
    DeliverPublishes(env, s1, item, tags);
  }

  /**
   * A production iteration that completes posts one photo to the primary
   * chat, then one to the secondary chat exactly when the scale-figure tag
   * is present, adds 1 to `post_count` and writes one row.
   */
  lemma DeliverPublishes(env: Env, s: RunState, item: InfoItem, tags: seq<string>)
    requires s.fault == None && env.mode == Production
    requires Deliver(env, s, item, tags).fault == None
    ensures var s' := Deliver(env, s, item, tags);
      s'.rows == s.rows + [Row(item.hobbyId, item.infoType, GetTimestamp(env.nowMs, 0))]
      && s'.fetched == s.fetched && s'.postCount == s.postCount + 1
      && |s.calls| <= |s'.calls| && s'.calls[..|s.calls|] == s.calls
      && PhotoTargets(s'.calls[|s.calls|..])
         == [env.channels.publishChannelId] + (if ScaleFigureTag in tags then [env.channels.publishSubChannelId] else [])
  {
    var s3 := AnnounceCalls(env, s, item, tags);
  }

  /**
   * The production branch when the insert fails after the publications went
   * through: the posts are made, but no row is written.
   */
  lemma DeliverLosesRow(env: Env, s: RunState, item: InfoItem, tags: seq<string>)
    requires s.fault == None && env.mode == Production
    requires Deliver(env, s, item, tags).fault == Some(StorageFailed(item.hobbyId))
    ensures var s' := Deliver(env, s, item, tags);
      s'.rows == s.rows
      && env.storageFails(Insert(Row(item.hobbyId, item.infoType, GetTimestamp(env.nowMs, 0))), s.rows)
      && |s.calls| <= |s'.calls| && s'.calls[..|s.calls|] == s.calls
      && PhotoTargets(s'.calls[|s.calls|..])
         == [env.channels.publishChannelId] + (if ScaleFigureTag in tags then [env.channels.publishSubChannelId] else [])
  {
    var s3 := AnnounceCalls(env, s, item, tags);
  }

  /**
   * The publications of the production branch, in a run without a fault:
   * they append their calls and change nothing else; the item goes on
   * exactly when neither throws, and then the photo posts went to the
   * primary chat and, if tagged, to the secondary chat.
   */
  lemma AnnounceCalls(env: Env, s: RunState, item: InfoItem, tags: seq<string>) returns (s': RunState)
    requires s.fault == None
    ensures s' == Announce(env, s, item, tags).state
    ensures Announce(env, s, item, tags).Proceed? <==> s'.fault == None
    ensures s'.fault == None || s'.fault.value.FallbackFailed?
    ensures s' == s.(calls := s'.calls, fault := s'.fault)
    ensures |s.calls| <= |s'.calls| && s'.calls[..|s.calls|] == s.calls
    ensures s'.fault == None ==>
      PhotoTargets(s'.calls[|s.calls|..])
      == [PrimaryChannel(env)] + (if ScaleFigureTag in tags then [SecondaryChannel(env)] else [])
  {
    var s2 := PublishProceeds(env, s, item, PrimaryChannel(env), tags);
    if s2.fault == None && ScaleFigureTag in tags {
      assert Announce(env, s, item, tags) == Publish(env, s2, item, SecondaryChannel(env), tags);
      s' := PublishProceeds(env, s2, item, SecondaryChannel(env), tags);
      CallsExtend(s.calls, s2.calls, s'.calls, PrimaryChannel(env), SecondaryChannel(env));
    } else {
      s' := s2;
    }
  }

  /** Two publications one after the other: the log grows by both, and their photo posts come in order. */
  lemma CallsExtend(a: seq<Call>, b: seq<Call>, c: seq<Call>, first: int, second: int)
    requires |a| <= |b| && b[..|a|] == a && PhotoTargets(b[|a|..]) == [first]
    requires |b| <= |c| && c[..|b|] == b && PhotoTargets(c[|b|..]) == [second]
    ensures |a| <= |c| && c[..|a|] == a && PhotoTargets(c[|a|..]) == [first, second]
  {
    assert c[..|a|] == b[..|a|];
    assert c[|a|..] == b[|a|..] + c[|b|..];
    PhotoTargetsAppend(b[|a|..], c[|b|..]);
  }

  /**
   * A publication in a run without a fault never leaves the item unless it
   * throws: it appends its calls, one photo post to `chatId` among them.
   */
  lemma PublishProceeds(env: Env, s: RunState, item: InfoItem, chatId: int, tags: seq<string>) returns (s': RunState)
    requires s.fault == None
    ensures s' == Publish(env, s, item, chatId, tags).state
    ensures Publish(env, s, item, chatId, tags).Proceed? <==> s'.fault == None
    ensures s'.fault == None || s'.fault.value.FallbackFailed?
    ensures s' == s.(calls := s'.calls, fault := s'.fault)
    ensures |s.calls| <= |s'.calls| && s'.calls[..|s.calls|] == s.calls
    ensures PhotoTargets(s'.calls[|s.calls|..]) == [chatId]
  {
    var a := PublishAttempt(item, chatId, tags, env.respond, s.calls);
    s' := Publish(env, s, item, chatId, tags).state;
    assert s'.calls == s.calls + a.calls;
    assert s'.calls[|s.calls|..] == a.calls;
    PublishPhotoTarget(item, chatId, tags, env.respond, s.calls);
  }

  /** Whatever the publications return, the production branch only appends and writes at most one row. */
  lemma DeliverShape(env: Env, s: RunState, item: InfoItem, tags: seq<string>)
    requires s.fault == None && env.mode == Production
    ensures var s' := Deliver(env, s, item, tags);
      (s'.rows == s.rows || s'.rows == s.rows + [Row(item.hobbyId, item.infoType, GetTimestamp(env.nowMs, 0))])
      && (s'.fault.Some? ==> s'.rows == s.rows)
      && |s.calls| <= |s'.calls| && s'.calls[..|s.calls|] == s.calls
      && (s'.fault == None ==> s'.postCount - s.postCount == |s'.rows| - |s.rows|)
  {
    var s3 := AnnounceCalls(env, s, item, tags);
  }

  /**
   * What one iteration can do to the run: rows and calls are only appended,
   * at most one row per item and none when the iteration ends the run, and
   * while no fault occurs `post_count` grows by the number of rows in
   * production and stays in any other mode, where no call is made.
   */
  lemma StepShape(env: Env, s: RunState, item: InfoItem)
    ensures var s' := Step(env, s, item);
      (s.fault.Some? ==> s' == s)
      && (s'.rows == s.rows || s'.rows == s.rows + [Row(item.hobbyId, item.infoType, GetTimestamp(env.nowMs, 0))])
      && (s'.fault.Some? ==> s'.rows == s.rows)
      && |s.calls| <= |s'.calls| && s'.calls[..|s.calls|] == s.calls
      && (s'.fault == None ==> s'.postCount - s.postCount == if env.mode == Production then |s'.rows| - |s.rows| else 0)
      && (env.mode != Production ==> s'.calls == s.calls && s'.postCount == s.postCount)
  {
    if s.fault == None && QuerySucceeds(env, s.rows, item) && !RecentlyPublished(s.rows, item.hobbyId, item.infoType, env.nowMs)
       && env.fetchTags(item.hobbyId).Some? && env.mode == Production
    {
      var s1 := s.(fetched := s.fetched + [item.hobbyId]);
      var tags := TagList(env.isLetter, env.fetchTags(item.hobbyId).value);
      assert Step(env, s, item) == Deliver(env, s1, item, tags);
      DeliverShape(env, s1, item, tags);
    }
  }

  /**
   * An iteration that ends the run writes no row; when it is the existence
   * query that fails, nothing else is done either.
   */
  lemma StepFaultWritesNoRow(env: Env, s: RunState, item: InfoItem)
    requires s.fault == None && Step(env, s, item).fault.Some?
    ensures Step(env, s, item).rows == s.rows
    ensures !QuerySucceeds(env, s.rows, item) ==> Step(env, s, item) == s.(fault := Some(StorageFailed(item.hobbyId)))
  {
    StepShape(env, s, item);
  }

  /**
   * The insert failing after the publications of a production iteration
   * went through: the run ends with the item's posts made and no row
   * written, so the item is still outside the window and a later run in the
   * window posts it again.
   */
  lemma FailedInsertKeepsPosts(env: Env, s: RunState, item: InfoItem)
    requires s.fault == None && env.mode == Production
    requires QuerySucceeds(env, s.rows, item)
    requires Step(env, s, item).fault == Some(StorageFailed(item.hobbyId))
    ensures env.fetchTags(item.hobbyId).Some?
    ensures var s' := Step(env, s, item);
      var tags := TagList(env.isLetter, env.fetchTags(item.hobbyId).value);
      s'.rows == s.rows && !RecentlyPublished(s'.rows, item.hobbyId, item.infoType, env.nowMs)
      && env.storageFails(Insert(Row(item.hobbyId, item.infoType, GetTimestamp(env.nowMs, 0))), s.rows)
      && |s.calls| <= |s'.calls| && s'.calls[..|s.calls|] == s.calls
      && PhotoTargets(s'.calls[|s.calls|..])
         == [env.channels.publishChannelId] + (if ScaleFigureTag in tags then [env.channels.publishSubChannelId] else [])
  {
    var tags := TagList(env.isLetter, env.fetchTags(item.hobbyId).value);
    var s1 := s.(fetched := s.fetched + [item.hobbyId]);
    assert Step(env, s, item) == Deliver(env, s1, item, tags);
    DeliverLosesRow(env, s1, item, tags);
  }

  /**
   * Over a whole run the table and the Bot API log only grow, by at most
   * one row per item.
   */
  lemma {:induction false} RunAppendsOnly(env: Env, s0: RunState, items: seq<InfoItem>)
    ensures var s := RunItems(env, s0, items);
      |s0.rows| <= |s.rows| <= |s0.rows| + |items| && s.rows[..|s0.rows|] == s0.rows
      && |s0.calls| <= |s.calls| && s.calls[..|s0.calls|] == s0.calls
  {
    if |items| > 0 {
      var n := |items| - 1;
      RunAppendsOnly(env, s0, items[..n]);
      var mid := RunItems(env, s0, items[..n]);
      StepShape(env, mid, items[n]);
      var s := RunItems(env, s0, items);
      assert s.rows[..|mid.rows|] == mid.rows;
      assert s.rows[..|s0.rows|] == mid.rows[..|s0.rows|];
      assert s.calls[..|s0.calls|] == mid.calls[..|s0.calls|];
    }
  }

  /** Outside production a run makes no Bot API call and leaves `post_count` as it was. */
  lemma {:induction false} NonProductionPublishesNothing(env: Env, s0: RunState, items: seq<InfoItem>)
    requires env.mode != Production
    ensures RunItems(env, s0, items).calls == s0.calls
    ensures RunItems(env, s0, items).postCount == s0.postCount
  {
    if |items| > 0 {
      var n := |items| - 1;
      NonProductionPublishesNothing(env, s0, items[..n]);
      StepShape(env, RunItems(env, s0, items[..n]), items[n]);
    }
  }

  /**
   * In production a run that ends without a fault adds to `post_count`
   * exactly the number of rows it writes: one for every item that was not
   * published within the window, whether its publication was delivered or
   * skipped.
   */
  lemma {:induction false} ProductionCountsRecords(env: Env, s0: RunState, items: seq<InfoItem>)
    requires env.mode == Production && s0.fault == None
    requires RunItems(env, s0, items).fault == None
    ensures RunItems(env, s0, items).postCount - s0.postCount == |RunItems(env, s0, items).rows| - |s0.rows|
  {
    if |items| > 0 {
      var n := |items| - 1;
      var mid := RunItems(env, s0, items[..n]);
      StepShape(env, mid, items[n]);
      ProductionCountsRecords(env, s0, items[..n]);
    }
  }

  /** An iteration keeps every item that was within the window inside it. */
  lemma StepKeepsRecent(env: Env, s: RunState, item: InfoItem, it: InfoItem)
    requires RecentlyPublished(s.rows, it.hobbyId, it.infoType, env.nowMs)
    ensures RecentlyPublished(Step(env, s, item).rows, it.hobbyId, it.infoType, env.nowMs)
  {
    StepShape(env, s, item);
    var s' := Step(env, s, item);
    if s'.rows != s.rows {
      RecentStaysRecent(s.rows, [Row(item.hobbyId, item.infoType, GetTimestamp(env.nowMs, 0))], it.hobbyId, it.infoType, env.nowMs);
    }
  }

  /** An iteration that completes leaves its own item within the window. */
  lemma StepMakesRecent(env: Env, s: RunState, item: InfoItem)
    requires s.fault == None && Step(env, s, item).fault == None
    ensures RecentlyPublished(Step(env, s, item).rows, item.hobbyId, item.infoType, env.nowMs)
  {
    if !RecentlyPublished(s.rows, item.hobbyId, item.infoType, env.nowMs) {
      StepPublishesFresh(env, s, item);
      FreshRowIsRecent(s.rows, item.hobbyId, item.infoType, env.nowMs);
    }
  }

  /** After a run that ends without a fault, every item of the run lies within the window. */
  lemma {:induction false} RunLeavesItemsRecent(env: Env, s0: RunState, items: seq<InfoItem>)
    requires s0.fault == None
    requires RunItems(env, s0, items).fault == None
    ensures forall k :: 0 <= k < |items| ==>
      RecentlyPublished(RunItems(env, s0, items).rows, items[k].hobbyId, items[k].infoType, env.nowMs)
  {
    if |items| > 0 {
      var n := |items| - 1;
      var mid := RunItems(env, s0, items[..n]);
      StepShape(env, mid, items[n]);
      RunLeavesItemsRecent(env, s0, items[..n]);
      StepLeavesItemsRecent(env, mid, items[..n], items[n]);
      assert items[..n] + [items[n]] == items;
    }
  }

  lemma StepLeavesItemsRecent(env: Env, s: RunState, done: seq<InfoItem>, item: InfoItem)
    requires s.fault == None && Step(env, s, item).fault == None
    requires forall k :: 0 <= k < |done| ==> RecentlyPublished(s.rows, done[k].hobbyId, done[k].infoType, env.nowMs)
    ensures forall k :: 0 <= k < |done + [item]| ==>
      RecentlyPublished(Step(env, s, item).rows, (done + [item])[k].hobbyId, (done + [item])[k].infoType, env.nowMs)
  {
    var all := done + [item];
    forall k | 0 <= k < |all|
      ensures RecentlyPublished(Step(env, s, item).rows, all[k].hobbyId, all[k].infoType, env.nowMs)
    {
      if k < |done| {
        assert all[k] == done[k];
        StepKeepsRecent(env, s, item, done[k]);
      } else {
        StepMakesRecent(env, s, item);
      }
    }
  }

  /** A run over items that are all within the window changes nothing at all. */
  lemma {:induction false} RunSkipsRecent(env: Env, s0: RunState, items: seq<InfoItem>)
    requires forall k :: 0 <= k < |items| ==> QuerySucceeds(env, s0.rows, items[k])
    requires forall k :: 0 <= k < |items| ==> RecentlyPublished(s0.rows, items[k].hobbyId, items[k].infoType, env.nowMs)
    ensures RunItems(env, s0, items) == s0
  {
    if |items| > 0 {
      var n := |items| - 1;
      var front := items[..n];
      forall k | 0 <= k < n
        ensures QuerySucceeds(env, s0.rows, front[k])
        ensures RecentlyPublished(s0.rows, front[k].hobbyId, front[k].infoType, env.nowMs)
      {
        assert front[k] == items[k];
      }
      RunSkipsRecent(env, s0, front);
      assert RunItems(env, s0, items) == Step(env, s0, items[n]);
      StepSkipsRecent(env, s0, items[n]);
    }
  }

  /**
   * Idempotency: running again at the same time over the same items, on the
   * table a completed run left, fetches no tags, makes no Bot API call,
   * writes no row and ends with `post_count` 0.
   */
  lemma RerunIsNoOp(env: Env, rows: seq<Row>, calls: seq<Call>, items: seq<InfoItem>, laterCalls: seq<Call>)
    requires RunItems(env, Start(rows, calls), items).fault == None
    requires forall k :: 0 <= k < |items| ==> QuerySucceeds(env, RunItems(env, Start(rows, calls), items).rows, items[k])
    ensures var first := RunItems(env, Start(rows, calls), items);
      var second := RunItems(env, Start(first.rows, laterCalls), items);
      second.postCount == 0 && second.calls == laterCalls && second.fetched == []
      && second.rows == first.rows && second.fault == None
  {
    var first := RunItems(env, Start(rows, calls), items);
    RunLeavesItemsRecent(env, Start(rows, calls), items);
    RunSkipsRecent(env, Start(first.rows, laterCalls), items);
  }
}
