/**
 * The rule behind `TransferCommunity::perform`: the first moderator of a
 * community (or a site admin) hands the top moderator slot to another
 * moderator.  The moderator list is reordered by moving the transferee to the
 * front, the community's rows of the `community_moderator` table are deleted
 * and re-joined one by one in the new order, and a mod-log entry is written.
 * The database is an object whose tables are sequences that the operations
 * replace; the JWT lookup and the admin query become parameters.
 */
module CommunityTransfer {
  import opened Common

  type PersonId = int
  type CommunityId = int

  /** A row of the `community_moderator` table, and the part of a `CommunityModeratorView` the rule reads. */
  datatype CommunityModerator = CommunityModerator(communityId: CommunityId, personId: PersonId)

  /** The request: which community, and who becomes its first moderator. */
  datatype TransferCommunity = TransferCommunity(communityId: CommunityId, personId: PersonId)

  /** The mod-log entry `ModTransferCommunityForm`. */
  datatype ModTransferCommunityForm =
    ModTransferCommunityForm(modPersonId: PersonId, otherPersonId: PersonId, communityId: CommunityId, removed: Option<bool>)

  datatype LemmyError =
    | IndexOutOfBounds                    // `community_mods[0]` on an empty list panics
    | NotAnAdmin                          // "not_an_admin"
    | TransfereeNotFound                  // the `position(..)` lookup came back empty
    | CommunityModeratorAlreadyExists     // "community_moderator_already_exists"

  // ---------------------------------------------------------------------------
  // Sequence helpers
  // ---------------------------------------------------------------------------

  /** The rows of one community, in table order (`CommunityModeratorView::for_community`). */
  function ForCommunity(rows: seq<CommunityModerator>, cid: CommunityId): (r: seq<CommunityModerator>)
    ensures forall m :: m in r ==> m in rows && m.communityId == cid
    ensures forall m :: m in rows && m.communityId == cid ==> m in r
  {
    if rows == [] then []
    else (if rows[0].communityId == cid then [rows[0]] else []) + ForCommunity(rows[1..], cid)
  }

  /** The rows of every other community, in table order (what `delete_for_community` leaves behind). */
  function ExceptCommunity(rows: seq<CommunityModerator>, cid: CommunityId): (r: seq<CommunityModerator>)
    ensures forall m :: m in r ==> m in rows && m.communityId != cid
    ensures forall m :: m in rows && m.communityId != cid ==> m in r
  {
    if rows == [] then []
    else (if rows[0].communityId != cid then [rows[0]] else []) + ExceptCommunity(rows[1..], cid)
  }

  /** The moderators other than person `p`, in order. */
  function ExceptPerson(mods: seq<CommunityModerator>, p: PersonId): seq<CommunityModerator>
  {
    if mods == [] then []
    else (if mods[0].personId != p then [mods[0]] else []) + ExceptPerson(mods[1..], p)
  }

  ghost predicate NoDuplicates<T>(s: seq<T>) {
    forall i, j :: 0 <= i < j < |s| ==> s[i] != s[j]
  }

  // ---------------------------------------------------------------------------
  // Authorisation, lookup and reorder (transfer.rs:43-59)
  // ---------------------------------------------------------------------------

  /** `admins.iter().map(|a| a.person.id).any(|x| x == p)`. */
  function IsAdmin(admins: seq<PersonId>, p: PersonId): (r: bool)
    ensures r <==> p in admins
  {
    if admins == [] then false else admins[0] == p || IsAdmin(admins[1..], p)
  }

  /** The caller may transfer iff it is the first moderator or an admin. */
  function MayTransfer(caller: PersonId, mods: seq<CommunityModerator>, admins: seq<PersonId>): bool
    requires |mods| > 0
  {
    caller == mods[0].personId || IsAdmin(admins, caller)
  }

  /** `iter().position(|r| r.moderator.id == p)`: the first index holding person `p`. */
  function Position(mods: seq<CommunityModerator>, p: PersonId): (r: Option<nat>)
    ensures r.Some? ==> r.value < |mods| && mods[r.value].personId == p
    ensures r.Some? ==> forall j :: 0 <= j < r.value ==> mods[j].personId != p
    ensures r.None? ==> forall j :: 0 <= j < |mods| ==> mods[j].personId != p
  {
    if mods == [] then None
    else if mods[0].personId == p then Some(0)
    else match Position(mods[1..], p)
      case None => None
      case Some(i) => Some(i + 1)
  }

  /** `remove(index)` followed by `insert(0, ..)` of the removed element. */
  function MoveToFront(mods: seq<CommunityModerator>, index: nat): seq<CommunityModerator>
    requires index < |mods|
  {
    var removed := mods[..index] + mods[index + 1..];
    [mods[index]] + removed
  }

  /** The reorder on its own: find person `p` and move it to the front. */
  function Reorder(mods: seq<CommunityModerator>, p: PersonId): Option<seq<CommunityModerator>>
  {
    match Position(mods, p)
    case None => None
    case Some(i) => Some(MoveToFront(mods, i))
  }

  /** Everything `perform` decides before touching the table: the new moderator order, or the error. */
  function NewOrder(mods: seq<CommunityModerator>, caller: PersonId, admins: seq<PersonId>, p: PersonId)
    : Result<seq<CommunityModerator>, LemmyError>
  {
    if |mods| == 0 then Err(IndexOutOfBounds)
    else if !MayTransfer(caller, mods, admins) then Err(NotAnAdmin)
    else match Reorder(mods, p)
      case None => Err(TransfereeNotFound)
      case Some(order) => Ok(order)
  }

  // ---------------------------------------------------------------------------
  // Properties of the reorder
  // ---------------------------------------------------------------------------

  /** The decision fails exactly in the three cases the handler checks, in the order it checks them. */
  lemma NewOrderErrors(mods: seq<CommunityModerator>, caller: PersonId, admins: seq<PersonId>, p: PersonId)
    ensures NewOrder(mods, caller, admins, p) == Err(IndexOutOfBounds) <==> mods == []
    ensures NewOrder(mods, caller, admins, p) == Err(NotAnAdmin)
            <==> mods != [] && caller != mods[0].personId && caller !in admins
    ensures NewOrder(mods, caller, admins, p) == Err(TransfereeNotFound)
            <==> mods != [] && (caller == mods[0].personId || caller in admins)
                 && forall j :: 0 <= j < |mods| ==> mods[j].personId != p
    ensures NewOrder(mods, caller, admins, p).Ok?
            <==> mods != [] && (caller == mods[0].personId || caller in admins)
                 && exists j :: 0 <= j < |mods| && mods[j].personId == p
  {
  }

  /** After the reorder the transferee is first and nothing was added or lost. */
  lemma {:induction false} ReorderPermutes(mods: seq<CommunityModerator>, p: PersonId)
    requires Reorder(mods, p).Some?
    ensures var order := Reorder(mods, p).value;
            |order| == |mods| && order[0].personId == p && multiset(order) == multiset(mods)
  {
    var i := Position(mods, p).value;
    assert mods == mods[..i] + [mods[i]] + mods[i + 1..];
  }

  lemma {:induction false} ExceptPersonConcat(a: seq<CommunityModerator>, b: seq<CommunityModerator>, p: PersonId)
    ensures ExceptPerson(a + b, p) == ExceptPerson(a, p) + ExceptPerson(b, p)
  {
    if a != [] {
      assert (a + b)[0] == a[0];
      assert (a + b)[1..] == a[1..] + b;
      ExceptPersonConcat(a[1..], b, p);
      var head := if a[0].personId != p then [a[0]] else [];
      calc {
        ExceptPerson(a + b, p);
        head + ExceptPerson(a[1..] + b, p);
        head + (ExceptPerson(a[1..], p) + ExceptPerson(b, p));
        (head + ExceptPerson(a[1..], p)) + ExceptPerson(b, p);
      }
    } else {
      assert a + b == b;
    }
  }

  /** Every other moderator keeps its place relative to the rest. */
  lemma {:induction false} ReorderKeepsOthersInOrder(mods: seq<CommunityModerator>, p: PersonId)
    requires Reorder(mods, p).Some?
    ensures ExceptPerson(Reorder(mods, p).value, p) == ExceptPerson(mods, p)
  {
    var i := Position(mods, p).value;
    var x, before, after := mods[i], mods[..i], mods[i + 1..];
    assert ExceptPerson([x], p) == [] by {
      assert [x][1..] == [];
    }
    assert mods == before + ([x] + after);
    calc {
      ExceptPerson(Reorder(mods, p).value, p);
      ExceptPerson([x] + (before + after), p);
      { ExceptPersonConcat([x], before + after, p); }
      ExceptPerson(before + after, p);
      { ExceptPersonConcat(before, after, p); }
      ExceptPerson(before, p) + ExceptPerson(after, p);
      { ExceptPersonConcat([x], after, p); }
      ExceptPerson(before, p) + ExceptPerson([x] + after, p);
      { ExceptPersonConcat(before, [x] + after, p); }
      ExceptPerson(mods, p);
    }
  }

  /** A transferee that is already first leaves the list as it is. */
  lemma ReorderFirstIsIdentity(mods: seq<CommunityModerator>, p: PersonId)
    requires mods != [] && mods[0].personId == p
    ensures Reorder(mods, p) == Some(mods)
  {
    assert Position(mods, p) == Some(0);
    assert [mods[0]] + (mods[..0] + mods[1..]) == mods;
  }

  /** Reordering twice is the same as reordering once. */
  lemma ReorderIdempotent(mods: seq<CommunityModerator>, p: PersonId)
    requires Reorder(mods, p).Some?
    ensures Reorder(Reorder(mods, p).value, p) == Reorder(mods, p)
  {
    ReorderPermutes(mods, p);
    ReorderFirstIsIdentity(Reorder(mods, p).value, p);
  }

  /** A table without duplicate rows yields a moderator list without duplicates, before and after the reorder. */
  lemma {:induction false} ForCommunityNoDuplicates(rows: seq<CommunityModerator>, cid: CommunityId)
    requires NoDuplicates(rows)
    ensures NoDuplicates(ForCommunity(rows, cid))
  {
    if rows != [] {
      assert NoDuplicates(rows[1..]) by {
        forall i, j | 0 <= i < j < |rows[1..]| ensures rows[1..][i] != rows[1..][j] {
          assert rows[1..][i] == rows[i + 1] && rows[1..][j] == rows[j + 1];
        }
      }
      ForCommunityNoDuplicates(rows[1..], cid);
      assert rows[0] !in rows[1..] by {
        forall k | 0 <= k < |rows[1..]| ensures rows[1..][k] != rows[0] {
          assert rows[1..][k] == rows[k + 1];
        }
      }
    }
  }

  /** Deleting a community's rows keeps a table free of duplicate rows. */
  lemma {:induction false} ExceptCommunityNoDuplicates(rows: seq<CommunityModerator>, cid: CommunityId)
    requires NoDuplicates(rows)
    ensures NoDuplicates(ExceptCommunity(rows, cid))
  {
    if rows != [] {
      assert NoDuplicates(rows[1..]) by {
        forall i, j | 0 <= i < j < |rows[1..]| ensures rows[1..][i] != rows[1..][j] {
          assert rows[1..][i] == rows[i + 1] && rows[1..][j] == rows[j + 1];
        }
      }
      ExceptCommunityNoDuplicates(rows[1..], cid);
      assert rows[0] !in rows[1..] by {
        forall k | 0 <= k < |rows[1..]| ensures rows[1..][k] != rows[0] {
          assert rows[1..][k] == rows[k + 1];
        }
      }
    }
  }

  lemma MoveToFrontNoDuplicates(mods: seq<CommunityModerator>, index: nat)
    requires index < |mods| && NoDuplicates(mods)
    ensures NoDuplicates(MoveToFront(mods, index))
  {
  }

  // ---------------------------------------------------------------------------
  // Table rewrite helpers
  // ---------------------------------------------------------------------------

  lemma {:induction false} ForCommunityConcat(a: seq<CommunityModerator>, b: seq<CommunityModerator>, cid: CommunityId)
    ensures ForCommunity(a + b, cid) == ForCommunity(a, cid) + ForCommunity(b, cid)
  {
    if a != [] {
      assert (a + b)[0] == a[0];
      assert (a + b)[1..] == a[1..] + b;
      ForCommunityConcat(a[1..], b, cid);
      var head := if a[0].communityId == cid then [a[0]] else [];
      calc {
        ForCommunity(a + b, cid);
        head + ForCommunity(a[1..] + b, cid);
        head + (ForCommunity(a[1..], cid) + ForCommunity(b, cid));
        (head + ForCommunity(a[1..], cid)) + ForCommunity(b, cid);
      }
    } else {
      assert a + b == b;
    }
  }

  lemma {:induction false} ForCommunityOfOwnRows(order: seq<CommunityModerator>, cid: CommunityId)
    requires forall m :: m in order ==> m.communityId == cid
    ensures ForCommunity(order, cid) == order
  {
    if order != [] {
      ForCommunityOfOwnRows(order[1..], cid);
    }
  }

  lemma {:induction false} ForCommunityOfOtherRows(rows: seq<CommunityModerator>, cid: CommunityId)
    requires forall m :: m in rows ==> m.communityId != cid
    ensures ForCommunity(rows, cid) == []
  {
    if rows != [] {
      assert rows[0] in rows;
      ForCommunityOfOtherRows(rows[1..], cid);
    }
  }

  /** Deleting a community's rows and appending a list of its rows makes the community read back as that list. */
  lemma ForCommunityAfterRewrite(rows: seq<CommunityModerator>, order: seq<CommunityModerator>, cid: CommunityId)
    requires forall m :: m in order ==> m.communityId == cid
    ensures ForCommunity(ExceptCommunity(rows, cid) + order, cid) == order
  {
    ForCommunityConcat(ExceptCommunity(rows, cid), order, cid);
    ForCommunityOfOtherRows(ExceptCommunity(rows, cid), cid);
    ForCommunityOfOwnRows(order, cid);
  }

  // ---------------------------------------------------------------------------
  // The database and the handler
  // ---------------------------------------------------------------------------

  /** The two tables the handler writes. */
  class Database {
    /** `community_moderator`, in insertion order. */
    var moderators: seq<CommunityModerator>
    /** `mod_transfer_community`, the mod log of transfers. */
    var modTransfers: seq<ModTransferCommunityForm>

    /** The table's unique constraint on (community, person): no row appears twice. */
    ghost predicate Valid()
      reads this
    {
      NoDuplicates(moderators)
    }

    constructor (moderators: seq<CommunityModerator>)
      requires NoDuplicates(moderators)
      ensures Valid()
      ensures this.moderators == moderators && modTransfers == []
    {
      this.moderators := moderators;
      modTransfers := [];
    }

    /** `CommunityModerator::delete_for_community`. */
    method DeleteForCommunity(cid: CommunityId)
      modifies this`moderators
      ensures old(Valid()) ==> Valid()
      ensures moderators == ExceptCommunity(old(moderators), cid)
    {
      if Valid() {
        ExceptCommunityNoDuplicates(moderators, cid);
      }
      moderators := ExceptCommunity(moderators, cid);
    }

    /** `CommunityModerator::join`: refused when the same (community, person) row already exists. */
    method Join(form: CommunityModerator) returns (ok: bool)
      modifies this`moderators
      ensures old(Valid()) ==> Valid()
      ensures ok <==> form !in old(moderators)
      ensures moderators == if ok then old(moderators) + [form] else old(moderators)
    {
      ok := form !in moderators;
      if ok {
        moderators := moderators + [form];
      }
    }

    /** `ModTransferCommunity::create`. */
    method CreateModTransfer(form: ModTransferCommunityForm)
      modifies this`modTransfers
      ensures modTransfers == old(modTransfers) + [form]
    {
      modTransfers := modTransfers + [form];
    }
  }

  /**
   * The rewrite at transfer.rs:61-77: delete the community's rows, then join
   * the moderators one by one in `order`, stopping at the first join the
   * table refuses.  `ok` is false exactly when `order` repeats a row.
   */
  method RewriteModerators(db: Database, cid: CommunityId, order: seq<CommunityModerator>) returns (ok: bool)
    requires forall m :: m in order ==> m.communityId == cid
    modifies db`moderators
    ensures old(db.Valid()) ==> db.Valid()
    ensures ok <==> NoDuplicates(order)
    ensures ok ==> db.moderators == ExceptCommunity(old(db.moderators), cid) + order
    ensures !ok ==> exists k :: 0 <= k < |order|
                      && db.moderators == ExceptCommunity(old(db.moderators), cid) + order[..k]
                      && order[k] in db.moderators
  {
    db.DeleteForCommunity(cid);
    var i := 0;
    while i < |order|
      invariant 0 <= i <= |order|
      invariant db.moderators == ExceptCommunity(old(db.moderators), cid) + order[..i]
      invariant NoDuplicates(order[..i])
      invariant old(db.Valid()) ==> db.Valid()
    {
      var cmod := order[i];
      ok := db.Join(CommunityModerator(cmod.communityId, cmod.personId));
      if !ok {
        assert cmod in order[..i];
        return;
      }
      assert order[..i + 1] == order[..i] + [cmod];
      i := i + 1;
    }
    assert order[..i] == order;
    ok := true;
  }

  /**
   * `TransferCommunity::perform` for the authenticated person `caller`, with
   * `admins` the ids of the site admins.  On success it returns the
   * community's moderators as read back from the table.
   */
  method Perform(db: Database, data: TransferCommunity, caller: PersonId, admins: seq<PersonId>)
    returns (r: Result<seq<CommunityModerator>, LemmyError>)
    modifies db
    ensures old(db.Valid()) ==> db.Valid()
    ensures var decision := NewOrder(ForCommunity(old(db.moderators), data.communityId), caller, admins, data.personId);
            old(db.Valid()) && decision.Ok? ==> r.Ok?
    ensures var decision := NewOrder(ForCommunity(old(db.moderators), data.communityId), caller, admins, data.personId);
            decision.Err? ==> r == Err(decision.error)
                              && db.moderators == old(db.moderators) && db.modTransfers == old(db.modTransfers)
    ensures var decision := NewOrder(ForCommunity(old(db.moderators), data.communityId), caller, admins, data.personId);
            decision.Ok? ==> (r.Ok? <==> NoDuplicates(decision.value))
    ensures var decision := NewOrder(ForCommunity(old(db.moderators), data.communityId), caller, admins, data.personId);
            r.Ok? ==> decision.Ok? && r.value == decision.value
                      && db.moderators == ExceptCommunity(old(db.moderators), data.communityId) + decision.value
                      && db.modTransfers == old(db.modTransfers)
                         + [ModTransferCommunityForm(caller, data.personId, data.communityId, Some(false))]
    ensures var decision := NewOrder(ForCommunity(old(db.moderators), data.communityId), caller, admins, data.personId);
            decision.Ok? && r.Err? ==>
              r.error == CommunityModeratorAlreadyExists && db.modTransfers == old(db.modTransfers)
              && exists k :: 0 <= k < |decision.value|
                   && db.moderators == ExceptCommunity(old(db.moderators), data.communityId) + decision.value[..k]
                   && decision.value[k] in db.moderators
  {
    var cid := data.communityId;
    var communityMods := ForCommunity(db.moderators, cid);
    ghost var decision := NewOrder(communityMods, caller, admins, data.personId);
    if |communityMods| == 0 {
      return Err(IndexOutOfBounds);
    }
    if caller != communityMods[0].personId && !IsAdmin(admins, caller) {
      return Err(NotAnAdmin);
    }
    var creatorIndex := Position(communityMods, data.personId);
    if creatorIndex.None? {
      return Err(TransfereeNotFound);
    }
    var creatorPerson := communityMods[creatorIndex.value];
    ghost var fetched := communityMods;
    communityMods := communityMods[..creatorIndex.value] + communityMods[creatorIndex.value + 1..];
    communityMods := [creatorPerson] + communityMods;
    assert communityMods == decision.value;
    assert forall m :: m in communityMods ==> m in fetched;

    if db.Valid() {
      UniqueTableTransferSucceeds(db.moderators, data, caller, admins);
    }
    var ok := RewriteModerators(db, cid, communityMods);
    if !ok {
      return Err(CommunityModeratorAlreadyExists);
    }

    db.CreateModTransfer(ModTransferCommunityForm(caller, data.personId, data.communityId, Some(false)));

    ForCommunityAfterRewrite(old(db.moderators), communityMods, cid);
    var moderators := ForCommunity(db.moderators, cid);
    return Ok(moderators);
  }

  /** On a table without duplicate rows an authorised transfer to an existing moderator always succeeds. */
  lemma UniqueTableTransferSucceeds(rows: seq<CommunityModerator>, data: TransferCommunity, caller: PersonId, admins: seq<PersonId>)
    requires NoDuplicates(rows)
    requires NewOrder(ForCommunity(rows, data.communityId), caller, admins, data.personId).Ok?
    ensures NoDuplicates(NewOrder(ForCommunity(rows, data.communityId), caller, admins, data.personId).value)
  {
    var mods := ForCommunity(rows, data.communityId);
    ForCommunityNoDuplicates(rows, data.communityId);
    MoveToFrontNoDuplicates(mods, Position(mods, data.personId).value);
  }
}
