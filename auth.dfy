/** Session, profile and pairing state (src/hooks/useAuth.tsx). The
    service's tables are a Backend value that the methods query; a couple is
    created `pending` by partner A with an invite code, and becomes `active`
    when someone else joins with that code as partner B. */
module Auth {
  import opened Common
  import opened Text

  datatype User = User(id: string, email: Option<string>)

  datatype Session = Session(user: User)

  datatype Profile = Profile(
    id: string, fullName: Option<string>, avatarUrl: Option<string>,
    email: Option<string>, createdAt: string, updatedAt: string)

  /** `Partial<Profile>`: None where the patch has no such key. */
  datatype ProfilePatch = ProfilePatch(
    id: Option<string>, fullName: Option<Option<string>>, avatarUrl: Option<Option<string>>,
    email: Option<Option<string>>, createdAt: Option<string>, updatedAt: Option<string>)

  datatype Couple = Couple(
    id: string, partnerA: string, partnerB: Option<string>, inviteCode: string,
    status: string, createdAt: string, updatedAt: string)

  /** The rows of the `profiles` and `couples` tables the queries see. */
  datatype Backend = Backend(profiles: seq<Profile>, couples: seq<Couple>)

  /** The errors `createCouple` and `joinCouple` answer with; RemoteError is
      the service's own error object. */
  datatype AuthError = NoUser | InvalidCode | OwnCouple | RemoteError

  /** The message an error carries; the service's errors carry their own. */
  function Message(e: AuthError): Option<string> {
    match e
    case NoUser => Some("Pengguna tidak ditemukan")
    case InvalidCode => Some("Kode undangan tidak valid atau sudah digunakan")
    case OwnCouple => Some("Tidak bisa bergabung dengan couple Anda sendiri")
    case RemoteError => None
  }

  predicate IsMember(c: Couple, uid: string) {
    c.partnerA == uid || c.partnerB == Some(uid)
  }

  /** The filter of the couple query in `fetchUserData`. */
  predicate ActiveFor(uid: string, c: Couple) {
    IsMember(c, uid) && c.status == "active"
  }

  /** The filter of the couple lookup in `fetchUserData`. */
  function ActiveForUser(uid: string): Couple -> bool {
    (c: Couple) => ActiveFor(uid, c)
  }

  /** The filter of the lookup in `joinCouple`. */
  function PendingWithCode(code: string): Couple -> bool {
    (c: Couple) => c.inviteCode == code && c.status == "pending"
  }

  /** The filter of the profile lookups. */
  function WithId(id: string): Profile -> bool {
    (p: Profile) => p.id == id
  }

  /** `profiles ... .eq('id', id).maybeSingle()`: the single profile with that
      id, else none. */
  function ProfileById(b: Backend, id: string): (r: Option<Profile>)
    ensures r.Some? ==> r.value in b.profiles && r.value.id == id
    ensures forall k :: 0 <= k < |b.profiles| && b.profiles[k].id == id
                        && (forall j :: 0 <= j < |b.profiles| && j != k ==> b.profiles[j].id != id)
                        ==> r == Some(b.profiles[k])
  {
    MaybeSingleFinds(b.profiles, WithId(id));
    MaybeSingle(Filter(b.profiles, WithId(id)))
  }

  /** The couple `fetchUserData` loads: the single active couple that has the
      user as a partner, else none. */
  function ActiveCoupleOf(b: Backend, uid: string): (r: Option<Couple>)
    ensures r.Some? ==> r.value in b.couples && r.value.status == "active" && IsMember(r.value, uid)
    ensures forall k :: 0 <= k < |b.couples| && ActiveFor(uid, b.couples[k])
                        && (forall j :: 0 <= j < |b.couples| && j != k ==> !ActiveFor(uid, b.couples[j]))
                        ==> r == Some(b.couples[k])
  {
    MaybeSingleFinds(b.couples, ActiveForUser(uid));
    MaybeSingle(Filter(b.couples, ActiveForUser(uid)))
  }

  /** The couple `joinCouple` finds: the single pending couple whose code is
      the upper-cased input, else none. */
  function PendingByCode(b: Backend, code: string): (r: Option<Couple>)
    ensures r.Some? ==> r.value in b.couples && r.value.status == "pending"
                        && r.value.inviteCode == Upper(code)
    ensures forall k :: 0 <= k < |b.couples| && PendingWithCode(Upper(code))(b.couples[k])
                        && (forall j :: 0 <= j < |b.couples| && j != k ==> !PendingWithCode(Upper(code))(b.couples[j]))
                        ==> r == Some(b.couples[k])
  {
    MaybeSingleFinds(b.couples, PendingWithCode(Upper(code)));
    MaybeSingle(Filter(b.couples, PendingWithCode(Upper(code))))
  }

  /** The other member: partner B when the user is partner A, else partner A. */
  function PartnerId(c: Couple, uid: string): Option<string> {
    if c.partnerA == uid then c.partnerB else Some(c.partnerA)
  }

  /** For a member, the partner id names the other member; it is absent
      exactly when the user created the couple and nobody has joined. */
  lemma PartnerIsOtherMember(c: Couple, uid: string)
    requires IsMember(c, uid)
    ensures PartnerId(c, uid).Some? ==> IsMember(c, PartnerId(c, uid).value)
    ensures PartnerId(c, uid).None? <==> c.partnerA == uid && c.partnerB.None?
    ensures PartnerId(c, uid) == Some(uid) ==> c.partnerA == uid && c.partnerB == Some(uid)
  {
  }

  /** The partner profile `fetchUserData` loads: none without a couple or
      without a (truthy) partner id, else that partner's profile. */
  function PartnerProfileOf(b: Backend, couple: Option<Couple>, uid: string): (r: Option<Profile>)
    ensures couple.None? ==> r.None?
    ensures couple.Some? && !Given(PartnerId(couple.value, uid)) ==> r.None?
    ensures r.Some? ==> couple.Some? && r.value.id == PartnerId(couple.value, uid).value
                        && r.value in b.profiles
    ensures couple.Some? && Given(PartnerId(couple.value, uid)) ==>
              r == ProfileById(b, PartnerId(couple.value, uid).value)
  {
    if couple.None? then None
    else
      var pid := PartnerId(couple.value, uid);
      if Given(pid) then ProfileById(b, pid.value) else None
  }

  function Override<T>(patch: Option<T>, v: T): T {
    if patch.Some? then patch.value else v
  }

  /** `prev ? { ...prev, ...data } : null`. */
  function MergeProfile(prev: Option<Profile>, d: ProfilePatch): (r: Option<Profile>)
    ensures r.None? <==> prev.None?
  {
    if prev.None? then None
    else
      var p := prev.value;
      Some(Profile(Override(d.id, p.id), Override(d.fullName, p.fullName),
        Override(d.avatarUrl, p.avatarUrl), Override(d.email, p.email),
        Override(d.createdAt, p.createdAt), Override(d.updatedAt, p.updatedAt)))
  }

  /** A merge keeps every field the patch does not name, and takes every
      field it does name from the patch. */
  lemma MergeProfileFields(p: Profile, d: ProfilePatch)
    ensures var r := MergeProfile(Some(p), d).value;
      && (d.id.None? ==> r.id == p.id) && (d.id.Some? ==> r.id == d.id.value)
      && (d.fullName.None? ==> r.fullName == p.fullName) && (d.fullName.Some? ==> r.fullName == d.fullName.value)
      && (d.avatarUrl.None? ==> r.avatarUrl == p.avatarUrl) && (d.avatarUrl.Some? ==> r.avatarUrl == d.avatarUrl.value)
      && (d.email.None? ==> r.email == p.email) && (d.email.Some? ==> r.email == d.email.value)
      && (d.createdAt.None? ==> r.createdAt == p.createdAt) && (d.createdAt.Some? ==> r.createdAt == d.createdAt.value)
      && (d.updatedAt.None? ==> r.updatedAt == p.updatedAt) && (d.updatedAt.Some? ==> r.updatedAt == d.updatedAt.value)
  {
  }

  /** Applying the same patch twice is applying it once, and the empty
      patch changes nothing. */
  lemma MergeProfileIdempotent(prev: Option<Profile>, d: ProfilePatch)
    ensures MergeProfile(MergeProfile(prev, d), d) == MergeProfile(prev, d)
    ensures MergeProfile(prev, ProfilePatch(None, None, None, None, None, None)) == prev
  {
  }

  /** The row a successful join leaves: partner B set, status `active`. */
  function Activate(c: Couple, uid: string): Couple {
    c.(partnerB := Some(uid), status := "active")
  }

  /** The tables after the join's update of the couple with that id. */
  function Activated(b: Backend, coupleId: string, uid: string): (r: Backend)
    ensures r.profiles == b.profiles && |r.couples| == |b.couples|
    ensures forall i :: 0 <= i < |b.couples| ==>
      r.couples[i] == if b.couples[i].id == coupleId then Activate(b.couples[i], uid) else b.couples[i]
  {
    Backend(b.profiles, seq(|b.couples|, i requires 0 <= i < |b.couples| =>
      if b.couples[i].id == coupleId then Activate(b.couples[i], uid) else b.couples[i]))
  }

  predicate UniqueCoupleIds(b: Backend) {
    forall i, j :: 0 <= i < j < |b.couples| ==> b.couples[i].id != b.couples[j].id
  }

  /** A join that someone other than the creator makes with a valid code,
      while they have no active couple, leaves that couple as their one
      active couple, with its creator as their partner. */
  lemma JoinActivatesCouple(b: Backend, code: string, uid: string)
    requires PendingByCode(b, code).Some? && PendingByCode(b, code).value.partnerA != uid
    requires UniqueCoupleIds(b)
    requires forall i :: 0 <= i < |b.couples| ==> !ActiveFor(uid, b.couples[i])
    ensures var p := PendingByCode(b, code).value;
      && ActiveCoupleOf(Activated(b, p.id, uid), uid) == Some(Activate(p, uid))
      && PartnerId(Activate(p, uid), uid) == Some(p.partnerA)
  {
    var p := PendingByCode(b, code).value;
    var k :| 0 <= k < |b.couples| && b.couples[k] == p;
    var after := Activated(b, p.id, uid);
    assert after.couples[k] == Activate(p, uid);
    forall j | 0 <= j < |after.couples| && j != k
      ensures !ActiveForUser(uid)(after.couples[j])
    {
      assert b.couples[j].id != p.id;
      assert after.couples[j] == b.couples[j];
    }
    FilterSingle(after.couples, ActiveForUser(uid), k);
  }

  /** The identity state of the app: `user`, `session`, `profile`, `couple`,
      `partnerProfile` and `loading`. */
  class AuthState {
    var user: Option<User>
    var session: Option<Session>
    var profile: Option<Profile>
    var couple: Option<Couple>
    var partnerProfile: Option<Profile>
    var loading: bool

    constructor ()
      ensures user.None? && session.None? && profile.None? && couple.None? && partnerProfile.None?
      ensures loading
    {
      user := None;
      session := None;
      profile := None;
      couple := None;
      partnerProfile := None;
      loading := true;
    }

    /** `fetchUserData`: the user's profile, their active couple and the
        other member's profile, as the tables answer; the session and
        `loading` are not touched. */
    method FetchUserData(b: Backend, uid: string)
      modifies this
      ensures user == old(user) && session == old(session) && loading == old(loading)
      ensures profile == ProfileById(b, uid)
      ensures couple == ActiveCoupleOf(b, uid)
      ensures partnerProfile == PartnerProfileOf(b, couple, uid)
    {
      profile := ProfileById(b, uid);
      couple := ActiveCoupleOf(b, uid);
      if couple.Some? {
        var partnerId := PartnerId(couple.value, uid);
        if Given(partnerId) {
          partnerProfile := ProfileById(b, partnerId.value);
        } else {
          partnerProfile := None;
        }
      } else {
        partnerProfile := None;
      }
    }

    /** `initialFetch`: the stored session is adopted, the user's data
        loaded when there is a user, and loading ends. */
    method InitialFetch(b: Backend, s: Option<Session>)
      modifies this
      ensures session == s && !loading
      ensures s.None? ==>
        && user.None? && profile == old(profile) && couple == old(couple)
        && partnerProfile == old(partnerProfile)
      ensures s.Some? ==>
        && user == Some(s.value.user)
        && profile == ProfileById(b, s.value.user.id)
        && couple == ActiveCoupleOf(b, s.value.user.id)
        && partnerProfile == PartnerProfileOf(b, couple, s.value.user.id)
    {
      session := s;
      user := if s.Some? then Some(s.value.user) else None;
      if s.Some? {
        FetchUserData(b, s.value.user.id);
      }
      loading := false;
    }

    /** The `onAuthStateChange` callback: a session with a user reloads that
        user's data (loading ends once it is in); no session clears the
        profile, couple and partner profile. */
    method OnAuthStateChange(b: Backend, s: Option<Session>)
      modifies this
      ensures session == s
      ensures s.None? ==>
        && user.None? && profile.None? && couple.None? && partnerProfile.None?
        && loading == old(loading)
      ensures s.Some? ==>
        && user == Some(s.value.user) && !loading
        && profile == ProfileById(b, s.value.user.id)
        && couple == ActiveCoupleOf(b, s.value.user.id)
        && partnerProfile == PartnerProfileOf(b, couple, s.value.user.id)
    {
      session := s;
      user := if s.Some? then Some(s.value.user) else None;
      if s.Some? {
        loading := true;
        FetchUserData(b, s.value.user.id);
        loading := false;
      } else {
        profile := None;
        couple := None;
        partnerProfile := None;
      }
    }

    /** `refreshCoupleData`: reloads the signed-in user's data; nothing
        happens when signed out. */
    method RefreshCoupleData(b: Backend)
      modifies this
      ensures user == old(user) && session == old(session)
      ensures old(user).None? ==>
        && profile == old(profile) && couple == old(couple)
        && partnerProfile == old(partnerProfile) && loading == old(loading)
      ensures old(user).Some? ==>
        && !loading
        && profile == ProfileById(b, user.value.id)
        && couple == ActiveCoupleOf(b, user.value.id)
        && partnerProfile == PartnerProfileOf(b, couple, user.value.id)
    {
      if user.Some? {
        loading := true;
        FetchUserData(b, user.value.id);
        loading := false;
      }
    }

    /** `signOut`: all identity state is cleared; `loading` is kept. */
    method SignOut()
      modifies this
      ensures user.None? && session.None? && profile.None? && couple.None? && partnerProfile.None?
      ensures loading == old(loading)
    {
      user := None;
      session := None;
      profile := None;
      couple := None;
      partnerProfile := None;
    }

    /** `updateProfile`: merges the patch into the local profile; a missing
        profile stays missing. */
    method UpdateProfile(d: ProfilePatch)
      modifies this
      ensures profile == MergeProfile(old(profile), d)
      ensures user == old(user) && session == old(session) && couple == old(couple)
      ensures partnerProfile == old(partnerProfile) && loading == old(loading)
    {
      profile := MergeProfile(profile, d);
    }

    /** `createCouple`. Signed out: the NoUser error and no insert. When the
        invite-code generator fails (`generated` is None): its error and no
        insert. Otherwise a `pending` couple with the user as partner A and
        the generated code is inserted (`newId` and `stamp` are what the
        service fills in); it becomes the current couple, and its code is
        returned, only when the insert succeeds. */
    method CreateCouple(generated: Option<string>, insert: Mutation, newId: string, stamp: string)
      returns (inviteCode: Option<string>, err: Option<AuthError>, inserted: Option<Couple>)
      modifies this
      ensures user == old(user) && session == old(session) && profile == old(profile)
      ensures partnerProfile == old(partnerProfile) && loading == old(loading)
      ensures old(user).None? ==>
        err == Some(NoUser) && inviteCode.None? && inserted.None? && couple == old(couple)
      ensures old(user).Some? && generated.None? ==>
        err == Some(RemoteError) && inviteCode.None? && inserted.None? && couple == old(couple)
      ensures old(user).Some? && generated.Some? ==>
        && inserted == Some(Couple(newId, user.value.id, None, generated.value, "pending", stamp, stamp))
        && (insert.Ack? ==> couple == inserted && inviteCode == Some(generated.value) && err.None?)
        && (insert.MutateError? ==> couple == old(couple) && inviteCode.None? && err == Some(RemoteError))
    {
      if user.None? {
        return None, Some(NoUser), None;
      }
      if generated.None? {
        return None, Some(RemoteError), None;
      }
      var row := Couple(newId, user.value.id, None, generated.value, "pending", stamp, stamp);
      inserted := Some(row);
      if insert.Ack? {
        couple := Some(row);
        inviteCode := Some(row.inviteCode);
        err := None;
      } else {
        inviteCode := None;
        err := Some(RemoteError);
      }
    }

    /** `joinCouple`. Signed out: NoUser. No single pending couple with the
        upper-cased code: InvalidCode. The user's own couple: OwnCouple. In
        none of these is anything updated. Otherwise that couple is updated
        to partner B = the user and status `active` (`request`); when the
        update succeeds the user's data is reloaded from the updated tables,
        and when it fails its error is returned and nothing is reloaded. */
    method JoinCouple(b: Backend, code: string, update: Mutation)
      returns (err: Option<AuthError>, request: Option<string>)
      modifies this
      ensures user == old(user) && session == old(session) && loading == old(loading)
      ensures old(user).None? ==> err == Some(NoUser)
      ensures old(user).Some? && PendingByCode(b, code).None? ==> err == Some(InvalidCode)
      ensures (old(user).Some? && PendingByCode(b, code).Some?
               && PendingByCode(b, code).value.partnerA == old(user).value.id) ==> err == Some(OwnCouple)
      ensures request.None? ==>
        profile == old(profile) && couple == old(couple) && partnerProfile == old(partnerProfile)
      ensures request.Some? ==>
        && old(user).Some? && PendingByCode(b, code).Some?
        && PendingByCode(b, code).value.partnerA != old(user).value.id
        && request.value == PendingByCode(b, code).value.id
      ensures request.Some? && update.MutateError? ==>
        err == Some(RemoteError) && profile == old(profile) && couple == old(couple)
        && partnerProfile == old(partnerProfile)
      ensures request.Some? && update.Ack? ==>
        var after := Activated(b, request.value, user.value.id);
        && err.None?
        && profile == ProfileById(after, user.value.id)
        && couple == ActiveCoupleOf(after, user.value.id)
        && partnerProfile == PartnerProfileOf(after, couple, user.value.id)
      ensures (old(user).None? || PendingByCode(b, code).None?
               || PendingByCode(b, code).value.partnerA == old(user).value.id) <==> request.None?
    {
      if user.None? {
        return Some(NoUser), None;
      }
      var found := PendingByCode(b, code);
      if found.None? {
        return Some(InvalidCode), None;
      }
      if found.value.partnerA == user.value.id {
        return Some(OwnCouple), None;
      }
      request := Some(found.value.id);
      if update.MutateError? {
        return Some(RemoteError), request;
      }
      FetchUserData(Activated(b, found.value.id, user.value.id), user.value.id);
      err := None;
    }
  }
}
