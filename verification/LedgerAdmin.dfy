/** Administration of the receipts: moving a legacy receipt to the ledger namespace, and pruning a
    completed one. */
module LedgerAdmin {
  import opened Wrappers
  import opened Receipts
  import opened Kubernetes
  import opened Protocol
  import opened ProtocolLemmas
  import opened Steps
  import opened ApiServer
  import opened Lifecycle
  import opened Phases
  import opened Opening
  import History

  // ---- migrate_teardown_ledger ----

  /** The bytes a legacy receipt holds. */
  function LegacyText(w: World, m: nat): Option<Text> {
    TextAt(w, Key(m, LegacyReceipt))
  }

  /** The exact bytes are still in at least one of the two receipts. */
  ghost predicate Kept(w: World, m: nat, text: Text) {
    LegacyText(w, m) == Some(text) || ReceiptText(w, m) == Some(text)
  }

  /** What a migration needs to go through when nothing interferes. */
  predicate Migratable(w: World, m: nat) {
    && Key(m, LedgerSpace) in w.store
    && LegacyText(w, m).Some? && Readable(LegacyText(w, m).value)
    && (Key(m, Receipt) in w.store ==> ReceiptText(w, m) == LegacyText(w, m))
  }

  method ReadLegacy(api: Api, m: nat) returns (result: Result<Option<Object>>)
    requires api.Valid()
    modifies api
    ensures api.Onward() && Quiet(api.foreign, old(api.world), api.world) && api.sent == old(api.sent)
    ensures result.Ok? && result.value.Some? ==> var o := result.value.value;
      && o.body.Ledger? && Readable(o.body.text) && TextBelow(o.body.text, api.world.nextUid)
      && Known(api.world, Key(m, LegacyReceipt), o)
    ensures !api.foreign ==> api.world.store == old(api.world).store
    ensures !api.foreign && result.Ok? ==>
      if result.value.Some? then Key(m, LegacyReceipt) in api.world.store && api.world.store[Key(m, LegacyReceipt)] == result.value.value
      else Key(m, LegacyReceipt) !in api.world.store
    ensures !api.foreign && !api.faulty && (Migratable(old(api.world), m) || Key(m, LegacyReceipt) !in old(api.world).store) ==> result.Ok?
  {
    hide Calm, Aged, LogOk, AbsencesHold, RunTo, Lawful;
    var reply := api.Get(Key(m, LegacyReceipt));
    match reply
    case Failed => return Err(ReadFailed);
    case NotFound => return Ok(None);
    case Found(o) =>
      if !o.body.Ledger? || !Readable(o.body.text) { return Err(ReceiptInvalid); }
      assert IsReceipt(Key(m, LegacyReceipt));
      FoundIsKnown(api.world, Key(m, LegacyReceipt));
      return Ok(Some(o));
  }

  /** Reads the destination; ownership labels are not required, equal bytes are. */
  method ReadDestination(api: Api, m: nat, text: Text) returns (result: Result<Option<Object>>)
    requires api.Valid()
    modifies api
    ensures api.Onward() && Quiet(api.foreign, old(api.world), api.world) && api.sent == old(api.sent)
    ensures result.Ok? && result.value.Some? ==> var o := result.value.value;
      o.body.Ledger? && o.body.text == text && Known(api.world, Key(m, Receipt), o)
    ensures !api.foreign ==> api.world.store == old(api.world).store
    ensures !api.foreign && result.Ok? ==> Matches(api.world, m, result.value)
    ensures !api.foreign && result.Ok? ==> Key(m, Receipt) !in api.world.store || ReceiptText(api.world, m) == Some(text)
    ensures !api.foreign && !api.faulty && Readable(text)
      && (Key(m, Receipt) in old(api.world).store ==> ReceiptText(old(api.world), m) == Some(text))
      ==> result.Ok?
  {
    hide Calm, Aged, LogOk, AbsencesHold, RunTo, Lawful;
    var reply := api.Get(Key(m, Receipt));
    match reply
    case Failed => return Err(ReadFailed);
    case NotFound => return Ok(None);
    case Found(o) =>
      if !o.body.Ledger? || !Readable(o.body.text) { return Err(ReceiptInvalid); }
      if o.body.text != text { return Err(RecordsDiffer); }
      FoundIsKnown(api.world, Key(m, Receipt));
      return Ok(Some(o));
  }

  /** Nothing but the two receipts of plane m changes. */
  ghost predicate OnlyReceipts(w: World, v: World, m: nat) {
    forall j :: j != Key(m, Receipt) && j != Key(m, LegacyReceipt) ==> SameAt(w, v, j)
  }

  lemma MigrationJustified(w: World, m: nat, text: Text, destination: Option<Object>)
    requires Readable(text) && (TextOf(destination).Some? ==> TextOf(destination) == Some(text))
    ensures MayWrite(w.log, |w.log|, m, TextOf(destination), text, Migrated)
  {
  }

  lemma DeletionJustified(w: World, m: nat, original: Object)
    requires original.body.Ledger? && Readable(original.body.text)
    requires |w.log| > 0 && w.log[|w.log|-1] == ReadBack(m, original.body.text)
    ensures MayDelete(w.log, |w.log|, Key(m, LegacyReceipt), original.uid, Some(original.body), m, original.body.text.parsed.value)
  {
  }

  lemma OriginalStays(foreign: bool, w: World, v: World, m: nat, original: Object)
    requires Quiet(foreign, w, v) && Known(w, Key(m, LegacyReceipt), original)
    requires original.body.Ledger? && TextBelow(original.body.text, w.nextUid)
    ensures Known(v, Key(m, LegacyReceipt), original) && TextBelow(original.body.text, v.nextUid)
  {
    KnownStays(w, v, Key(m, LegacyReceipt), original);
    TextBelowStays(w, v, original.body.text);
  }

  /** In a calm world: the legacy receipt is the one that was read, the destination free or equal. */
  ghost predicate Movable(w: World, m: nat, original: Object, destination: Option<Object>) {
    && Key(m, LegacyReceipt) in w.store && w.store[Key(m, LegacyReceipt)] == original
    && Matches(w, m, destination)
  }

  /** Copies the bytes, reads them back, and only then deletes the legacy receipt. */
  method MoveReceipt(api: Api, m: nat, original: Object, destination: Option<Object>, polls: nat) returns (result: Result<bool>)
    requires api.Valid() && original.body.Ledger? && Readable(original.body.text) && TextBelow(original.body.text, api.world.nextUid)
    requires Known(api.world, Key(m, LegacyReceipt), original)
    requires destination.Some? ==>
      && destination.value.body.Ledger? && destination.value.body.text == original.body.text
      && Known(api.world, Key(m, Receipt), destination.value)
    modifies api
    ensures api.Onward() && Moves(api.foreign, old(api.world), api.world)
    ensures result.Ok? ==> result.value
    ensures !api.foreign ==> OnlyReceipts(old(api.world), api.world, m)
    ensures !api.foreign && Movable(old(api.world), m, original, destination) ==>
      && Kept(api.world, m, original.body.text)
      && (result.Ok? ==> Key(m, LegacyReceipt) !in api.world.store && LedgerAt(api.world, m, original.body.text))
      && (!api.faulty ==> result.Ok?)
  {
    hide Inv, Calm, Aged, Quiet, Moves, MayWrite, MayDelete, Known, RecordedAs, RunTo, Lawful;
    ghost var w0 := api.world;
    var text := original.body.text;
    var legacy := Key(m, LegacyReceipt);
    MigrationJustified(w0, m, text, destination);
    var written := WriteReceipt(api, m, text, destination, Migrated);
    ghost var w1 := api.world;
    if !api.foreign && Movable(w0, m, original, destination) { LegacyStays(w0, w1, m, original); }
    if written.Err? { return Err(written.reason); }
    api.Note(ReadBack(m, text));
    ghost var w2 := api.world;
    QuietMoves(api.foreign, w1, w2);
    MovesTransitive(api.foreign, w0, w1, w2);
    DeletionJustified(w2, m, original);
    KnownLater(api.foreign, w0, w2, legacy, original);
    var deleted := PreconditionedDelete(api, legacy, original, true, m, text.parsed.value, polls);
    MovesTransitive(api.foreign, w0, w2, api.world);
    if !api.foreign {
      OnlyReceiptsCompose(w0, w1, w2, api.world, m);
      if Movable(w0, m, original, destination) { DestinationStays(w2, api.world, m, text); }
    }
    return if deleted.Err? then Err(deleted.reason) else Ok(true);
  }

  lemma LegacyStays(w: World, v: World, m: nat, original: Object)
    requires forall j :: j != Key(m, Receipt) ==> SameAt(w, v, j)
    requires Key(m, LegacyReceipt) in w.store && w.store[Key(m, LegacyReceipt)] == original && original.body.Ledger?
    ensures Kept(v, m, original.body.text) && Targets(v, Key(m, LegacyReceipt), original.uid, Some(original))
  {
    assert SameAt(w, v, Key(m, LegacyReceipt));
  }

  lemma KnownLater(foreign: bool, w: World, v: World, k: Key, o: Object)
    requires Moves(foreign, w, v) && Known(w, k, o)
    ensures Known(v, k, o)
  {
    KnownStays(w, v, k, o);
  }

  lemma OnlyReceiptsCompose(w0: World, w1: World, w2: World, v: World, m: nat)
    requires forall j :: j != Key(m, Receipt) ==> SameAt(w0, w1, j)
    requires w1.store == w2.store
    requires OnlyTakes(w2, v, Key(m, LegacyReceipt)) && Moves(false, w2, v)
    requires forall j :: IsReceipt(j) && j != Key(m, LegacyReceipt) ==> SameAt(w2, v, j)
    ensures OnlyReceipts(w0, v, m)
  {
    forall j | j != Key(m, Receipt) && j != Key(m, LegacyReceipt) ensures SameAt(w0, v, j) {
      assert SameAt(w0, w1, j);
      if IsReceipt(j) { assert SameAt(w2, v, j); }
    }
  }

  lemma DestinationStays(w: World, v: World, m: nat, text: Text)
    requires LedgerAt(w, m, text)
    requires forall j :: IsReceipt(j) && j != Key(m, LegacyReceipt) ==> SameAt(w, v, j)
    ensures LedgerAt(v, m, text)
  {
    assert SameAt(w, v, Key(m, Receipt));
  }

  /** `migrate_teardown_ledger`; true when a receipt was moved. */
  method MigrateLedger(api: Api, m: nat, polls: nat) returns (result: Result<bool>)
    requires api.Valid()
    modifies api
    ensures api.Onward() && Moves(api.foreign, old(api.world), api.world)
    ensures History.Accounted(api.worlds, api.steps, |old(api.worlds)| - 1, |api.steps|)
    ensures !api.foreign ==> OnlyReceipts(old(api.world), api.world, m)
    // never lost, whatever call a crash hits
    ensures !api.foreign && LegacyText(old(api.world), m).Some? ==> Kept(api.world, m, LegacyText(old(api.world), m).value)
    // differing bytes: nothing is touched
    ensures !api.foreign && LegacyText(old(api.world), m).Some? && Key(m, Receipt) in old(api.world).store
      && ReceiptText(old(api.world), m) != LegacyText(old(api.world), m)
      ==> !result.Ok? && api.world.store == old(api.world).store
    // done once, there is nothing to do again
    ensures !api.foreign && result.Ok? ==> Key(m, LegacyReceipt) !in api.world.store
    ensures !api.foreign && result == Ok(true) ==>
      LegacyText(old(api.world), m).Some? && LedgerAt(api.world, m, LegacyText(old(api.world), m).value)
    ensures !api.foreign && Key(m, LegacyReceipt) !in old(api.world).store ==>
      api.world.store == old(api.world).store && api.sent == old(api.sent) && result != Ok(true)
    ensures !api.foreign && !api.faulty && Migratable(old(api.world), m) ==> result == Ok(true)
  {
    hide Inv, Calm, Aged, Quiet, Moves, MayWrite, MayDelete, Known, RunTo, Lawful, History.Accounted;
    ghost var w0, from := api.world, api.worlds;
    StartOfRun(api.worlds, api.steps, w0);
    var space := api.Get(Key(m, LedgerSpace));
    ghost var w1 := api.world;
    QuietMoves(api.foreign, w0, w1);
    History.RunAccounts(from, api.worlds, api.steps, w1);
    if !space.Found? { return Err(LedgerSpaceAbsent); }
    var legacy := ReadLegacy(api, m);
    ghost var w2 := api.world;
    QuietTransitive(api.foreign, w0, w1, w2);
    QuietMoves(api.foreign, w0, w2);
    History.RunAccounts(from, api.worlds, api.steps, w2);
    if legacy.Err? { return Err(legacy.reason); }
    if legacy.value.None? { return Ok(false); }
    var original := legacy.value.value;
    var destination := ReadDestination(api, m, original.body.text);
    ghost var w3 := api.world;
    QuietTransitive(api.foreign, w0, w2, w3);
    QuietMoves(api.foreign, w0, w3);
    History.RunAccounts(from, api.worlds, api.steps, w3);
    if destination.Err? { return Err(destination.reason); }
    OriginalStays(api.foreign, w2, w3, m, original);
    result := MoveReceipt(api, m, original, destination.value, polls);
    MovesTransitive(api.foreign, w0, w3, api.world);
    History.RunAccounts(from, api.worlds, api.steps, api.world);
    if !api.foreign { SameStart(w0, w3, api.world); }
  }

  // ---- prune_teardown_ledger ----

  /** A completed single-plane receipt whose Cluster and Namespace are absent. */
  predicate Prunable(w: World, m: nat) {
    && ReceiptRecord(w, m).Some?
    && ReceiptRecord(w, m).value.complete && ReceiptRecord(w, m).value.planes.None?
    && Key(m, Cluster) !in w.store && Key(m, Namespace) !in w.store
  }

  /** Reads that must all agree before a receipt is pruned; None when there is none. */
  method SelectPrunable(api: Api, m: nat) returns (result: Result<Option<Object>>)
    requires api.Valid()
    modifies api
    ensures api.Onward() && Quiet(api.foreign, old(api.world), api.world) && api.sent == old(api.sent)
    ensures result.Ok? && result.value.Some? ==> var o := result.value.value;
      && o.body.Ledger? && o.body.text.parsed.Some? && Known(api.world, Key(m, Receipt), o)
      && MayDelete(api.world.log, |api.world.log|, Key(m, Receipt), o.uid, Some(o.body), m, o.body.text.parsed.value)
      && Recorded(api.world.log, |api.world.log|, m, o.body.text.parsed.value)
    ensures !api.foreign ==> api.world.store == old(api.world).store
    ensures !api.foreign && result.Ok? && result.value.None? ==> Key(m, Receipt) !in api.world.store
    ensures !api.foreign && result.Ok? && result.value.Some? ==>
      Prunable(api.world, m) && Targets(api.world, Key(m, Receipt), result.value.value.uid, result.value)
    ensures !api.foreign && !api.faulty && Key(m, LedgerSpace) in old(api.world).store
      && (Prunable(old(api.world), m) || Key(m, Receipt) !in old(api.world).store)
      ==> result.Ok?
  {
    hide Inv, Calm, Aged, Quiet, RecordBelow, Known, MayDelete, Recorded, RunTo, Lawful;
    ghost var w0 := api.world;
    var space := api.Get(Key(m, LedgerSpace));
    ghost var w1 := api.world;
    if !space.Found? { return Err(LedgerSpaceAbsent); }
    var receipt := ReadReceipt(api, m);
    ghost var w2 := api.world;
    QuietTransitive(api.foreign, w0, w1, w2);
    if receipt.Err? { return Err(receipt.reason); }
    if receipt.value.None? { return Ok(None); }
    var o := receipt.value.value;
    var r := o.body.text.parsed.value;
    if !r.complete { return Err(RecordIncomplete); }
    if r.planes.Some? { return Err(SplitRecord); }
    var cluster := api.Get(Key(m, Cluster));
    ghost var w3 := api.world;
    QuietTransitive(api.foreign, w0, w2, w3);
    if cluster.Failed? { return Err(ReadFailed); }
    var namespace := api.Get(Key(m, Namespace));
    QuietTransitive(api.foreign, w0, w3, api.world);
    if namespace.Failed? { return Err(ReadFailed); }
    if cluster.Found? || namespace.Found? { return Err(StillPresent); }
    PruningJustified(api.foreign, w2, w3, api.world, m, r, o);
    return Ok(Some(o));
  }

  lemma PruningJustified(foreign: bool, w2: World, w3: World, v: World, m: nat, r: Record, o: Object)
    requires Quiet(foreign, w2, w3) && Quiet(foreign, w3, v) && Carries(w2, m, r, o) && r.complete && r.planes.None?
    requires JustAbsent(w3, Key(m, Cluster)) && JustAbsent(v, Key(m, Namespace))
    requires Recorded(w2.log, |w2.log|, m, r)
    ensures Recorded(v.log, |v.log|, m, r)
    ensures MayDelete(v.log, |v.log|, Key(m, Receipt), o.uid, Some(o.body), m, r)
    ensures Known(v, Key(m, Receipt), o)
  {
    JustAbsentIsSeen(w3, Key(m, Cluster), r.cluster);
    SeenStays(w3, v, Key(m, Cluster), r.cluster);
    JustAbsentIsSeen(v, Key(m, Namespace), r.space);
    KnownStays(w2, w3, Key(m, Receipt), o);
    KnownStays(w3, v, Key(m, Receipt), o);
    RecordedStays(w2.log, |w2.log|, v.log, |v.log|, m, r);
  }

  /** A record that was completed, here or before it was migrated, and whose Cluster and namespace are
      gone at world j. */
  ghost predicate Pruned(worlds: seq<World>, j: nat, m: nat, r: Record)
    requires j < |worlds|
  {
    && r.complete && r.planes.None?
    && Gone(worlds[j], Key(m, Cluster), r.cluster) && Gone(worlds[j], Key(m, Namespace), r.space)
    && (History.TornDown(worlds, j, m, r) || RecordedAs(worlds[j].log, |worlds[j].log|, m, r, Migrated))
  }

  lemma PruningAttests(foreign: bool, w: World, worlds: seq<World>, steps: seq<Step>, v: World, m: nat,
                       uid: Uid, checked: Option<Body>, r: Record)
    requires Moves(foreign, w, v) && RunTo(worlds, steps, v)
    requires MayDelete(w.log, |w.log|, Key(m, Receipt), uid, checked, m, r) && Recorded(w.log, |w.log|, m, r)
    ensures |worlds| == |steps| + 1 && Pruned(worlds, |steps|, m, r)
  {
    hide RecordedAs, Recorded, SeenGone, Gone, LogOk, AbsencesHold, Fresh, ReceiptsMatch, Aged, Calm, History.TornDown;
    SeenStays(w, v, Key(m, Cluster), r.cluster);
    SeenStays(w, v, Key(m, Namespace), r.space);
    SeenGoneIsGone(v, Key(m, Cluster), r.cluster);
    SeenGoneIsGone(v, Key(m, Namespace), r.space);
    RecordedStays(w.log, |w.log|, v.log, |v.log|, m, r);
    History.CompleteOrigin(v.log, m, r);
    if RecordedAs(v.log, |v.log|, m, r, Completed) { History.RecordedCompletion(worlds, steps, v, m, r); }
  }

  /** `prune_teardown_ledger`; true when a receipt was deleted. */
  method PruneLedger(api: Api, m: nat, polls: nat) returns (result: Result<bool>)
    requires api.Valid()
    modifies api
    ensures api.Onward() && Moves(api.foreign, old(api.world), api.world)
    ensures result == Ok(true) ==>
      && JustAbsent(api.world, Key(m, Receipt))
      && exists r :: Pruned(api.worlds, |api.steps|, m, r)
    ensures History.Accounted(api.worlds, api.steps, |old(api.worlds)| - 1, |api.steps|)
    ensures !api.foreign ==> forall j :: IsReceipt(j) && j != Key(m, Receipt) ==> SameAt(old(api.world), api.world, j)
    ensures !api.foreign && !Prunable(old(api.world), m) ==>
      api.world.store == old(api.world).store && api.sent == old(api.sent) && result != Ok(true)
    ensures !api.foreign && !api.faulty && Key(m, LedgerSpace) in old(api.world).store && Prunable(old(api.world), m) ==>
      result == Ok(true)
  {
    hide Inv, Calm, Aged, Quiet, Moves, MayDelete, Known, Recorded, JustAbsent, RunTo, Lawful, Pruned, History.Accounted;
    ghost var w0, from := api.world, api.worlds;
    StartOfRun(api.worlds, api.steps, w0);
    var selected := SelectPrunable(api, m);
    ghost var w1 := api.world;
    QuietMoves(api.foreign, w0, w1);
    if !api.foreign { SameStart(w0, w1, w1); }
    History.RunAccounts(from, api.worlds, api.steps, w1);
    if selected.Err? { return Err(selected.reason); }
    if selected.value.None? { return Ok(false); }
    var o := selected.value.value;
    var deleted := PreconditionedDelete(api, Key(m, Receipt), o, true, m, o.body.text.parsed.value, polls);
    MovesTransitive(api.foreign, w0, w1, api.world);
    if !api.foreign { SameStart(w0, w1, api.world); }
    History.RunAccounts(from, api.worlds, api.steps, api.world);
    PruningAttests(api.foreign, w1, api.worlds, api.steps, api.world, m, o.uid, Some(o.body), o.body.text.parsed.value);
    return if deleted.Err? then Err(deleted.reason) else Ok(true);
  }
}
