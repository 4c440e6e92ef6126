/** The `users` table and its two server functions (convex/users.ts): `store`, which
    upserts the caller's identity keyed on its WorkOS id, and `get`, which looks the caller
    up. `getAuthUserId` (convex/utils.ts) is `get` reduced to the stored id. */
module Users {
  import opened Wrappers

  /** A document id in the `users` table. */
  type UserId = nat

  /** The claims of the authenticated identity, each already passed through `String(...)`.
      `emailVerified` is `JSON.parse(String(claim))` when that yields a boolean, and None
      when it does not (the parse throws, or the value is not a boolean). */
  datatype Identity = Identity(
    id: string,
    name: string,
    firstName: string,
    lastName: string,
    email: string,
    emailVerified: Option<bool>,
    pfpUrl: string)

  /** A document of the `users` table (convex/schema.ts). */
  datatype User = User(
    workosId: string,
    name: string,
    firstName: string,
    lastName: string,
    email: string,
    emailVerified: bool,
    pfpUrl: string)

  /** The six fields `store` may patch; `workosId` is not among them. */
  datatype Field = Name | FirstName | LastName | Email | EmailVerified | PfpUrl

  /** One database write issued by `store`. */
  datatype Write = Patch(id: UserId, field: Field) | Insert(id: UserId)

  datatype UserError = NotAuthenticated | EmailVerifiedNotBoolean | UserNotStored

  /** What `get` returns: the stored id with the identity's own claims. */
  datatype GetUserReturn = GetUserReturn(id: UserId, workosId: string, name: string, email: string, pfpUrl: string)

  /** The record `store` writes for an identity whose email_verified claim parsed. */
  function Profile(identity: Identity): (u: User)
    requires identity.emailVerified.Some?
    ensures u.workosId == identity.id && u.emailVerified == identity.emailVerified.value
  {
    User(identity.id, identity.name, identity.firstName, identity.lastName,
         identity.email, identity.emailVerified.value, identity.pfpUrl)
  }

  /** Whether the stored value of field `f` differs from the wanted one. */
  predicate Differs(stored: User, wanted: User, f: Field) {
    match f
    case Name => stored.name != wanted.name
    case FirstName => stored.firstName != wanted.firstName
    case LastName => stored.lastName != wanted.lastName
    case Email => stored.email != wanted.email
    case EmailVerified => stored.emailVerified != wanted.emailVerified
    case PfpUrl => stored.pfpUrl != wanted.pfpUrl
  }

  /** The position of a field in the order `store` tests them. */
  function Rank(f: Field): nat {
    match f
    case Name => 0
    case FirstName => 1
    case LastName => 2
    case Email => 3
    case EmailVerified => 4
    case PfpUrl => 5
  }

  /** The first three of `store`'s six tests: the name fields. */
  function NameChanges(stored: User, wanted: User): (fs: seq<Field>)
    ensures forall i, j :: 0 <= i < j < |fs| ==> Rank(fs[i]) < Rank(fs[j])
    ensures forall i :: 0 <= i < |fs| ==> Rank(fs[i]) < 3
  {
    (if stored.name != wanted.name then [Name] else [])
    + (if stored.firstName != wanted.firstName then [FirstName] else [])
    + (if stored.lastName != wanted.lastName then [LastName] else [])
  }

  /** The last three of `store`'s six tests: the contact fields. */
  function ContactChanges(stored: User, wanted: User): (fs: seq<Field>)
    ensures forall i, j :: 0 <= i < j < |fs| ==> Rank(fs[i]) < Rank(fs[j])
    ensures forall i :: 0 <= i < |fs| ==> 3 <= Rank(fs[i]) < 6
  {
    (if stored.email != wanted.email then [Email] else [])
    + (if stored.emailVerified != wanted.emailVerified then [EmailVerified] else [])
    + (if stored.pfpUrl != wanted.pfpUrl then [PfpUrl] else [])
  }

  /** The fields `store` patches, in the order it patches them. */
  function ChangedFields(stored: User, wanted: User): (fs: seq<Field>)
    // each field at most once, in the order of the six tests
    ensures forall i, j :: 0 <= i < j < |fs| ==> Rank(fs[i]) < Rank(fs[j])
    ensures |fs| <= 6
    // a differing name is always the first patch
    ensures stored.name != wanted.name <==> |fs| > 0 && fs[0] == Name
  {
    NameChanges(stored, wanted) + ContactChanges(stored, wanted)
  }

  /** The stored record after every differing field has been patched. */
  function Patched(stored: User, wanted: User): (u: User)
    ensures u.workosId == stored.workosId
    ensures forall f :: !Differs(u, wanted, f)
  {
    stored.(name := wanted.name, firstName := wanted.firstName, lastName := wanted.lastName,
            email := wanted.email, emailVerified := wanted.emailVerified, pfpUrl := wanted.pfpUrl)
  }

  /** One patch write per field, in order. */
  function PatchWrites(id: UserId, fs: seq<Field>): (ws: seq<Write>)
    ensures |ws| == |fs|
    ensures forall i :: 0 <= i < |fs| ==> ws[i] == Patch(id, fs[i])
  {
    if fs == [] then [] else [Patch(id, fs[0])] + PatchWrites(id, fs[1..])
  }

  /** `store` patches exactly the fields that differ, each once. */
  lemma ChangedFieldsAreDiffering(stored: User, wanted: User)
    ensures forall f :: f in ChangedFields(stored, wanted) <==> Differs(stored, wanted, f)
    ensures |ChangedFields(stored, wanted)| <= 6
  {
    var names, contacts := NameChanges(stored, wanted), ContactChanges(stored, wanted);
    forall f ensures f in names + contacts <==> Differs(stored, wanted, f) {
      if Rank(f) < 3 {
        assert f !in contacts;
      } else {
        assert f !in names;
      }
    }
  }

  /** Patching a record found by its WorkOS id yields exactly the identity's profile. */
  lemma PatchedIsProfile(stored: User, wanted: User)
    requires stored.workosId == wanted.workosId
    ensures Patched(stored, wanted) == wanted
  {
  }

  /** Nothing is patched exactly when the stored record already is the wanted one. */
  lemma NoPatchIffUpToDate(stored: User, wanted: User)
    requires stored.workosId == wanted.workosId
    ensures ChangedFields(stored, wanted) == [] <==> stored == wanted
  {
    if ChangedFields(stored, wanted) == [] {
      forall f: Field ensures !Differs(stored, wanted, f) {
        assert f !in ChangedFields(stored, wanted);
      }
      assert !Differs(stored, wanted, Name) && !Differs(stored, wanted, FirstName);
      assert !Differs(stored, wanted, LastName) && !Differs(stored, wanted, Email);
      assert !Differs(stored, wanted, EmailVerified) && !Differs(stored, wanted, PfpUrl);
    }
  }

  class UsersTable {
    /** The documents of the table, by id. */
    var rows: map<UserId, User>
    /** The `by_workosId` index. */
    var byWorkosId: map<string, UserId>
    /** The id the next insert receives. */
    var nextId: UserId
    /** Every write issued against the table, in order. */
    ghost var writes: seq<Write>

    /** The index is exact: each WorkOS id names at most one user. */
    ghost predicate Valid()
      reads this
    {
      && (forall id :: id in rows ==> id < nextId)
      && (forall id :: id in rows ==> rows[id].workosId in byWorkosId && byWorkosId[rows[id].workosId] == id)
      && (forall w :: w in byWorkosId ==> byWorkosId[w] in rows && rows[byWorkosId[w]].workosId == w)
    }

    constructor ()
      ensures Valid() && rows == map[] && byWorkosId == map[] && writes == []
    {
      rows, byWorkosId, nextId, writes := map[], map[], 0, [];
    }

    /** `get`: the caller's stored id, with the name, email and picture of the identity. */
    function Get(identity: Option<Identity>): (r: Result<GetUserReturn, UserError>)
      reads this
      ensures identity.None? ==> r == Failure(NotAuthenticated)
      ensures identity.Some? && identity.value.id !in byWorkosId ==> r == Failure(UserNotStored)
      ensures r.Success? <==> identity.Some? && identity.value.id in byWorkosId
      ensures r.Success? ==> identity.Some?
                             && r.value.name == identity.value.name
                             && r.value.email == identity.value.email
                             && r.value.pfpUrl == identity.value.pfpUrl
                             && r.value.workosId == identity.value.id
      ensures Valid() && r.Success? ==> r.value.id in rows && rows[r.value.id].workosId == identity.value.id
    {
      match identity
      case None => Failure(NotAuthenticated)
      case Some(i) =>
        if i.id in byWorkosId then Success(GetUserReturn(byWorkosId[i.id], i.id, i.name, i.email, i.pfpUrl))
        else Failure(UserNotStored)
    }

    /** `getAuthUserId`: the `_id` part of `get`. */
    function AuthUserId(identity: Option<Identity>): (r: Result<UserId, UserError>)
      reads this
      ensures r.Success? <==> identity.Some? && identity.value.id in byWorkosId
      ensures Valid() && r.Success? ==> r.value in rows && rows[r.value].workosId == identity.value.id
    {
      match Get(identity)
      case Success(u) => Success(u.id)
      case Failure(e) => Failure(e)
    }

    /** The patch branch of `store`: each field of the stored user `id` that differs from
        the wanted value is patched on its own, in declaration order, comparing against the
        record as first fetched. The patches of one mutation commit together, so they are
        applied to a copy of the record that is written back at the end. */
    method PatchStored(id: UserId, wanted: User)
      requires id in rows
      modifies this`rows, this`writes
      ensures rows == old(rows)[id := Patched(old(rows)[id], wanted)]
      ensures writes == old(writes) + PatchWrites(id, ChangedFields(old(rows)[id], wanted))
    {
      var user := rows[id];
      var patched := user;
      ghost var names: seq<Field> := [];
      if user.name != wanted.name {
        patched := patched.(name := wanted.name);
        names := names + [Name];
      }
      if user.firstName != wanted.firstName {
        patched := patched.(firstName := wanted.firstName);
        names := names + [FirstName];
      }
      if user.lastName != wanted.lastName {
        patched := patched.(lastName := wanted.lastName);
        names := names + [LastName];
      }
      assert names == NameChanges(user, wanted);
      ghost var contacts: seq<Field> := [];
      if user.email != wanted.email {
        patched := patched.(email := wanted.email);
        contacts := contacts + [Email];
      }
      if user.emailVerified != wanted.emailVerified {
        patched := patched.(emailVerified := wanted.emailVerified);
        contacts := contacts + [EmailVerified];
      }
      if user.pfpUrl != wanted.pfpUrl {
        patched := patched.(pfpUrl := wanted.pfpUrl);
        contacts := contacts + [PfpUrl];
      }
      assert contacts == ContactChanges(user, wanted);
      assert patched == Patched(user, wanted);
      rows := rows[id := patched];
      writes := writes + PatchWrites(id, names + contacts);
    }

    /** `store`: upsert the caller's identity on its WorkOS id. */
    method Store(identity: Option<Identity>) returns (r: Result<UserId, UserError>)
      requires Valid()
      modifies this
      ensures Valid()
      ensures identity.None? ==> r == Failure(NotAuthenticated)
      ensures identity.Some? && identity.value.emailVerified.None? ==> r == Failure(EmailVerifiedNotBoolean)
      ensures r.Failure? ==> unchanged(this)
      ensures identity.Some? && identity.value.emailVerified.Some? ==> r.Success?
      // an existing user keeps its id and has exactly its differing fields patched
      ensures r.Success? && identity.value.id in old(byWorkosId) ==>
                var id := old(byWorkosId)[identity.value.id];
                && r.value == id
                && rows == old(rows)[id := Patched(old(rows)[id], Profile(identity.value))]
                && byWorkosId == old(byWorkosId) && nextId == old(nextId)
                && writes == old(writes) + PatchWrites(id, ChangedFields(old(rows)[id], Profile(identity.value)))
      // a new identity gets exactly one fresh record
      ensures r.Success? && identity.value.id !in old(byWorkosId) ==>
                && r.value == old(nextId) && r.value !in old(rows)
                && rows == old(rows)[r.value := Profile(identity.value)]
                && byWorkosId == old(byWorkosId)[identity.value.id := r.value]
                && nextId == old(nextId) + 1
                && writes == old(writes) + [Insert(r.value)]
      // afterwards the stored record is the identity's profile, and `get` finds it
      ensures r.Success? ==> r.value in rows && rows[r.value] == Profile(identity.value)
      ensures r.Success? ==> AuthUserId(identity) == Success(r.value)
      // no other user's record changes
      ensures forall id :: id in old(rows) && (r.Failure? || id != r.value) ==> id in rows && rows[id] == old(rows)[id]
    {
      if identity.None? {
        return Failure(NotAuthenticated);
      }
      var i := identity.value;
      if i.emailVerified.None? {
        return Failure(EmailVerifiedNotBoolean);
      }
      var wanted := Profile(i);
      if i.id in byWorkosId {
        var id := byWorkosId[i.id];
        PatchStored(id, wanted);
        return Success(id);
      }
      var id := nextId;
      rows := rows[id := wanted];
      byWorkosId := byWorkosId[i.id := id];
      nextId := nextId + 1;
      writes := writes + [Insert(id)];
      return Success(id);
    }
  }

  /** A second `store` with the same identity returns the same id, writes nothing and
      changes no record: the whole effect of the pair is that of the first call. */
  method StoreTwice(table: UsersTable, identity: Option<Identity>)
      returns (first: Result<UserId, UserError>, second: Result<UserId, UserError>)
    requires table.Valid()
    modifies table
    ensures table.Valid()
    ensures first == second
    ensures first.Failure? ==> table.writes == old(table.writes) && table.rows == old(table.rows)
    ensures first.Success? ==> identity.Some? && identity.value.emailVerified.Some?
    ensures first.Success? ==>
              && table.rows == old(table.rows)[first.value := Profile(identity.value)]
              && table.writes == old(table.writes)
                 + (if identity.value.id in old(table.byWorkosId)
                    then PatchWrites(first.value, ChangedFields(old(table.rows)[old(table.byWorkosId)[identity.value.id]], Profile(identity.value)))
                    else [Insert(first.value)])
  {
    first := table.Store(identity);
    ghost var w1 := table.writes;
    second := table.Store(identity);
    if first.Success? {
      var id := first.value;
      NoPatchIffUpToDate(table.rows[id], table.rows[id]);
      assert table.writes == w1;
    }
  }
}
