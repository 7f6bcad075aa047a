/** The multi-recipient side of chat notifications: resolving every
    receiver's token, cutting the tokens into gateway-sized batches, and
    recording one outcome per batch. */
module FanOut {
  import opened Store
  import opened Messages

  /** The push gateway's fan-out ceiling for one multicast call. */
  const MaxMulticastSize := 500

  // ---------------------------------------------------------------------
  // Token collection

  /** The token one chat receiver contributes: none when the user record is
      missing, its read throws, or it holds neither token field. */
  function ReceiverToken(users: map<string, Doc>, faults: set<string>, id: string): Option<string>
  {
    match ReadDoc(users, Some(id), faults)
    case Found(user) => ResolveToken(user, ChatTokenFields)
    case _ => None
  }

  /** The tokens of `ids`, receiver by receiver, in order, duplicates kept. */
  function ResolvedTokens(users: map<string, Doc>, faults: set<string>, ids: seq<string>): seq<string>
    decreases |ids|
  {
    if ids == [] then []
    else
      var last := ReceiverToken(users, faults, ids[|ids| - 1]);
      ResolvedTokens(users, faults, ids[..|ids| - 1]) + (if last.Some? then [last.value] else [])
  }

  /** Collecting over two runs of receivers is collecting over each in turn:
      order is kept and nothing is deduplicated. */
  lemma {:induction false} ResolvedTokensAppend(users: map<string, Doc>, faults: set<string>, a: seq<string>, b: seq<string>)
    ensures ResolvedTokens(users, faults, a + b) == ResolvedTokens(users, faults, a) + ResolvedTokens(users, faults, b)
    decreases |b|
  {
    if b == [] {
      assert a + b == a;
    } else {
      var b' := b[..|b| - 1];
      assert (a + b)[..|a + b| - 1] == a + b';
      assert (a + b)[|a + b| - 1] == b[|b| - 1];
      ResolvedTokensAppend(users, faults, a, b');
    }
  }

  /** Every receiver contributes at most one token, so there are never more
      tokens than receivers; each token is one a receiver resolves to. */
  lemma {:induction false} ResolvedTokensBounded(users: map<string, Doc>, faults: set<string>, ids: seq<string>)
    ensures |ResolvedTokens(users, faults, ids)| <= |ids|
    ensures forall t :: t in ResolvedTokens(users, faults, ids) ==>
              exists i :: 0 <= i < |ids| && ReceiverToken(users, faults, ids[i]) == Some(t)
    decreases |ids|
  {
    if ids != [] {
      var init := ids[..|ids| - 1];
      ResolvedTokensBounded(users, faults, init);
      forall t | t in ResolvedTokens(users, faults, ids)
        ensures exists i :: 0 <= i < |ids| && ReceiverToken(users, faults, ids[i]) == Some(t)
      {
        if t in ResolvedTokens(users, faults, init) {
          var i :| 0 <= i < |init| && ReceiverToken(users, faults, init[i]) == Some(t);
          assert ids[i] == init[i];
        } else {
          assert ReceiverToken(users, faults, ids[|ids| - 1]) == Some(t);
        }
      }
    }
  }

  /** No token is collected exactly when no receiver resolves to one; in
      particular an empty receiver list collects none. */
  lemma {:induction false} ResolvedTokensEmptyIff(users: map<string, Doc>, faults: set<string>, ids: seq<string>)
    ensures ResolvedTokens(users, faults, ids) == [] <==>
              forall i :: 0 <= i < |ids| ==> ReceiverToken(users, faults, ids[i]).None?
    decreases |ids|
  {
    if ids != [] {
      var init := ids[..|ids| - 1];
      ResolvedTokensEmptyIff(users, faults, init);
      assert forall i :: 0 <= i < |init| ==> init[i] == ids[i];
    }
  }

  /** The `for (const userId of receiverIds)` loop: one read per receiver;
      a missing user, a user with no token and a read that throws are
      skipped, and the rest push their token. */
  method CollectTokens(users: map<string, Doc>, faults: set<string>, receiverIds: seq<string>) returns (userTokens: seq<string>)
    ensures userTokens == ResolvedTokens(users, faults, receiverIds)
  {
    userTokens := [];
    for i := 0 to |receiverIds|
      invariant userTokens == ResolvedTokens(users, faults, receiverIds[..i])
    {
      assert receiverIds[..i + 1][..i] == receiverIds[..i];
      var userDoc := ReadDoc(users, Some(receiverIds[i]), faults);
      if userDoc.Found? {
        var token := ResolveToken(userDoc.doc, ChatTokenFields);
        if token.Some? {
          userTokens := userTokens + [token.value];
        }
      }
    }
    assert receiverIds[..|receiverIds|] == receiverIds;
  }

  // ---------------------------------------------------------------------
  // Batching

  /** Consecutive slices of at most `MaxMulticastSize` tokens. */
  function Batches(tokens: seq<string>): seq<seq<string>>
    decreases |tokens|
  {
    if tokens == [] then []
    else if |tokens| <= MaxMulticastSize then [tokens]
    else [tokens[..MaxMulticastSize]] + Batches(tokens[MaxMulticastSize..])
  }

  /** The concatenation of a sequence of batches. */
  function Flatten(batches: seq<seq<string>>): seq<string>
  {
    if batches == [] then [] else batches[0] + Flatten(batches[1..])
  }

  lemma {:induction false} FlattenSnoc(batches: seq<seq<string>>, b: seq<string>)
    ensures Flatten(batches + [b]) == Flatten(batches) + b
    decreases |batches|
  {
    if batches == [] {
      assert [] + [b] == [b];
    } else {
      assert (batches + [b])[1..] == batches[1..] + [b];
      FlattenSnoc(batches[1..], b);
    }
  }

  /** The batches put back together are the tokens, in order. */
  lemma {:induction false} BatchesFlatten(tokens: seq<string>)
    ensures Flatten(Batches(tokens)) == tokens
    decreases |tokens|
  {
    if |tokens| > MaxMulticastSize {
      var rest := tokens[MaxMulticastSize..];
      BatchesFlatten(rest);
      assert ([tokens[..MaxMulticastSize]] + Batches(rest))[1..] == Batches(rest);
      assert tokens[..MaxMulticastSize] + rest == tokens;
    } else if tokens != [] {
      assert [tokens][1..] == [];
    }
  }

  /** There are ⌈N/500⌉ batches, each non-empty and at most 500 long, and
      all but the last are full. */
  lemma {:induction false} BatchesShape(tokens: seq<string>)
    ensures |Batches(tokens)| == (|tokens| + MaxMulticastSize - 1) / MaxMulticastSize
    ensures forall k :: 0 <= k < |Batches(tokens)| ==> 0 < |Batches(tokens)[k]| <= MaxMulticastSize
    ensures forall k :: 0 <= k < |Batches(tokens)| - 1 ==> |Batches(tokens)[k]| == MaxMulticastSize
    decreases |tokens|
  {
    if |tokens| > MaxMulticastSize {
      var rest := tokens[MaxMulticastSize..];
      BatchesShape(rest);
      var bs := Batches(tokens);
      assert bs == [tokens[..MaxMulticastSize]] + Batches(rest);
      assert forall k :: 1 <= k < |bs| ==> bs[k] == Batches(rest)[k - 1];
    }
  }

  /** Unfolding one batch from a position inside the tokens. */
  lemma BatchesFrom(tokens: seq<string>, i: nat)
    requires i < |tokens|
    ensures var end := if i + MaxMulticastSize <= |tokens| then i + MaxMulticastSize else |tokens|;
      Batches(tokens[i..]) == [tokens[i..end]] + Batches(tokens[end..])
  {
    var t := tokens[i..];
    if |t| > MaxMulticastSize {
      assert t[..MaxMulticastSize] == tokens[i..i + MaxMulticastSize];
      assert t[MaxMulticastSize..] == tokens[i + MaxMulticastSize..];
    } else {
      assert t != [] && Batches(t) == [t];
      assert tokens[i..|tokens|] == t;
      assert tokens[|tokens|..] == [];
    }
  }

  /** The `for (let i = 0; i < n; i += 500)` loop pushing
      `userTokens.slice(i, i + 500)`. */
  method SplitBatches(userTokens: seq<string>) returns (tokenBatches: seq<seq<string>>)
    ensures tokenBatches == Batches(userTokens)
  {
    tokenBatches := [];
    var i := 0;
    while i < |userTokens|
      invariant i <= |userTokens| ==> tokenBatches + Batches(userTokens[i..]) == Batches(userTokens)
      invariant i > |userTokens| ==> tokenBatches == Batches(userTokens)
    {
      var end := if i + MaxMulticastSize <= |userTokens| then i + MaxMulticastSize else |userTokens|;
      BatchesFrom(userTokens, i);
      tokenBatches := tokenBatches + [userTokens[i..end]];
      i := i + MaxMulticastSize;
      if i > |userTokens| {
        assert userTokens[end..] == [];
      }
    }
    if i == |userTokens| {
      assert userTokens[i..] == [];
    }
  }

  // ---------------------------------------------------------------------
  // Per-batch results

  /** One `{total, success, failure}` entry; `threw` marks the entry of a
      batch whose send threw (the source adds the error message to it). */
  datatype BatchResult = BatchResult(total: nat, success: nat, failure: nat, threw: bool)

  /** The entry recorded for one batch: the gateway's counts, or, when the
      send throws, every token of the batch counted as failed. */
  function BatchOutcome(batch: seq<string>, outcome: MulticastOutcome): BatchResult
  {
    match outcome
    case Counted(s, f) => BatchResult(|batch|, s, f, false)
    case MulticastThrew => BatchResult(|batch|, 0, |batch|, true)
  }

  /** The multicast messages sent, one per batch, in order. */
  function Multicasts(note: Notification, data: map<string, string>, batches: seq<seq<string>>): (ms: seq<Multicast>)
    ensures |ms| == |batches|
    ensures forall k :: 0 <= k < |batches| ==> ms[k] == Multicast(note, data, batches[k])
    decreases |batches|
  {
    if batches == [] then []
    else Multicasts(note, data, batches[..|batches| - 1]) + [Multicast(note, data, batches[|batches| - 1])]
  }

  /** The results of sending every batch; `gateway(k, m)` is what the k-th
      multicast call, carrying `m`, does. */
  function Results(note: Notification, data: map<string, string>, batches: seq<seq<string>>,
                   gateway: (nat, Multicast) -> MulticastOutcome): seq<BatchResult>
    decreases |batches|
  {
    if batches == [] then []
    else
      var k := |batches| - 1;
      Results(note, data, batches[..k], gateway) + [BatchOutcome(batches[k], gateway(k, Multicast(note, data, batches[k])))]
  }

  /** One result per batch, in order, each for its own batch and its own
      gateway call: a batch whose send threw counts all its tokens as failed
      and leaves every other batch's entry as the gateway reported it. */
  lemma {:induction false} ResultsPerBatch(note: Notification, data: map<string, string>, batches: seq<seq<string>>,
                                           gateway: (nat, Multicast) -> MulticastOutcome)
    ensures var rs := Results(note, data, batches, gateway);
      && |rs| == |batches|
      && forall k :: 0 <= k < |batches| ==>
           && rs[k].total == |batches[k]|
           && rs[k] == BatchOutcome(batches[k], gateway(k, Multicast(note, data, batches[k])))
           && (rs[k].threw <==> gateway(k, Multicast(note, data, batches[k])).MulticastThrew?)
           && (rs[k].threw ==> rs[k].success == 0 && rs[k].failure == rs[k].total)
    decreases |batches|
  {
    if batches != [] {
      var init := batches[..|batches| - 1];
      ResultsPerBatch(note, data, init, gateway);
      assert forall k :: 0 <= k < |init| ==> init[k] == batches[k];
    }
  }

  /** The `for (const tokenBatch of tokenBatches)` loop: one multicast per
      batch; a throwing send is caught and recorded, and the loop goes on. */
  method SendBatches(note: Notification, data: map<string, string>, tokenBatches: seq<seq<string>>,
                     gateway: (nat, Multicast) -> MulticastOutcome)
    returns (sent: seq<Multicast>, results: seq<BatchResult>)
    ensures sent == Multicasts(note, data, tokenBatches)
    ensures results == Results(note, data, tokenBatches, gateway)
  {
    sent, results := [], [];
    for k := 0 to |tokenBatches|
      invariant sent == Multicasts(note, data, tokenBatches[..k])
      invariant results == Results(note, data, tokenBatches[..k], gateway)
    {
      assert tokenBatches[..k + 1][..k] == tokenBatches[..k];
      var message := Multicast(note, data, tokenBatches[k]);
      sent := sent + [message];
      match gateway(k, message)
      case Counted(successCount, failureCount) =>
        results := results + [BatchResult(|tokenBatches[k]|, successCount, failureCount, false)];
      case MulticastThrew =>
        results := results + [BatchResult(|tokenBatches[k]|, 0, |tokenBatches[k]|, true)];
    }
    assert tokenBatches[..|tokenBatches|] == tokenBatches;
  }

  // ---------------------------------------------------------------------
  // Aggregates

  function SumTotal(rs: seq<BatchResult>): nat
  {
    if rs == [] then 0 else SumTotal(rs[..|rs| - 1]) + rs[|rs| - 1].total
  }

  function SumSuccess(rs: seq<BatchResult>): nat
  {
    if rs == [] then 0 else SumSuccess(rs[..|rs| - 1]) + rs[|rs| - 1].success
  }

  function SumFailure(rs: seq<BatchResult>): nat
  {
    if rs == [] then 0 else SumFailure(rs[..|rs| - 1]) + rs[|rs| - 1].failure
  }

  /** The totals add up to the number of tokens sent. */
  lemma {:induction false} ResultsTotal(note: Notification, data: map<string, string>, batches: seq<seq<string>>,
                                        gateway: (nat, Multicast) -> MulticastOutcome)
    ensures SumTotal(Results(note, data, batches, gateway)) == |Flatten(batches)|
    decreases |batches|
  {
    if batches != [] {
      var init := batches[..|batches| - 1];
      var rs := Results(note, data, batches, gateway);
      ResultsTotal(note, data, init, gateway);
      assert rs[..|rs| - 1] == Results(note, data, init, gateway);
      assert init + [batches[|batches| - 1]] == batches;
      FlattenSnoc(init, batches[|batches| - 1]);
    }
  }

  /** When every answering gateway call accounts for each token of its batch
      once (`successCount + failureCount` is the batch size), the reported
      successes and failures add up to the number of tokens. */
  lemma {:induction false} ResultsAccounting(note: Notification, data: map<string, string>, batches: seq<seq<string>>,
                                             gateway: (nat, Multicast) -> MulticastOutcome)
    requires forall k :: 0 <= k < |batches| ==>
               var o := gateway(k, Multicast(note, data, batches[k]));
               o.Counted? ==> o.successCount + o.failureCount == |batches[k]|
    ensures SumSuccess(Results(note, data, batches, gateway)) + SumFailure(Results(note, data, batches, gateway))
              == |Flatten(batches)|
    decreases |batches|
  {
    if batches != [] {
      var init := batches[..|batches| - 1];
      var rs := Results(note, data, batches, gateway);
      assert forall k :: 0 <= k < |init| ==> init[k] == batches[k];
      ResultsAccounting(note, data, init, gateway);
      assert rs[..|rs| - 1] == Results(note, data, init, gateway);
      assert init + [batches[|batches| - 1]] == batches;
      FlattenSnoc(init, batches[|batches| - 1]);
    }
  }
}
