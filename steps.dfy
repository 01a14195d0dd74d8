/** The per-call response checks of the create flow, the reduction of the
    template's collaborations to user ids, the join of the two concurrent
    lookups, and the decision whether the current user must be granted access. */
module BoxSteps {
  import opened BoxTypes

  /** A call's response passes only with its one expected status code. */
  function Accept<T>(step: Step, status: int, value: T): (r: Result<T>)
  {
    if status == ExpectedStatus(step) then Ok(value) else Err(StepError(step))
  }

  /** The token call: the access token on exactly 200. */
  function ReadToken(r: TokenResponse): (res: Result<string>)
    ensures res.Ok? <==> r.status == 200
    ensures res.Ok? ==> res.value == r.accessToken
    ensures res.Err? ==> res.error == FailGetApiToken
  {
    Accept(Token, r.status, r.accessToken)
  }

  /** The user lookup: the first entry's id on exactly 200 with exactly one match. */
  function ReadUserId(r: UserSearchResponse): (res: Result<string>)
    ensures res.Ok? <==> r.status == 200 && r.totalCount == 1 && |r.entryIds| > 0
    ensures res.Ok? ==> res.value == r.entryIds[0]
    ensures r.status != 200 || r.totalCount != 1 ==> res == Err(FailGetUserId)
    ensures r.status == 200 && r.totalCount == 1 && |r.entryIds| == 0 ==> res == Err(MalformedBody)
  {
    if r.status != ExpectedStatus(UserLookup) || r.totalCount != 1 then Err(StepError(UserLookup))
    else if |r.entryIds| == 0 then Err(MalformedBody)
    else Ok(r.entryIds[0])
  }

  /** The ids of the collaborations whose `accessible_by` is a user, in order. */
  function UserIdsOf(entries: seq<Collaboration>): (ids: seq<string>)
    ensures |ids| <= |entries|
    ensures |ids| == |entries| <==> forall i :: 0 <= i < |entries| ==> entries[i].accessibleType == UserType
  {
    if entries == [] then []
    else
      var head := if entries[0].accessibleType == UserType then [entries[0].accessibleId] else [];
      assert forall i :: 0 < i < |entries| ==> entries[i] == entries[1..][i - 1];
      head + UserIdsOf(entries[1..])
  }

  /** Filtering then mapping distributes over concatenation: together with its
      value on a single entry, this fixes the result and its order. */
  lemma {:induction false} UserIdsOfAppend(a: seq<Collaboration>, b: seq<Collaboration>)
    ensures UserIdsOf(a + b) == UserIdsOf(a) + UserIdsOf(b)
  {
    if a == [] {
      assert a + b == b;
    } else {
      assert (a + b)[1..] == a[1..] + b;
      UserIdsOfAppend(a[1..], b);
    }
  }

  /** An id is in the result exactly when some entry is a user collaboration with that id. */
  lemma {:induction false} InUserIdsOf(entries: seq<Collaboration>, id: string)
    ensures id in UserIdsOf(entries) <==>
            exists i :: 0 <= i < |entries| && entries[i] == Collaboration(UserType, id)
  {
    if entries != [] {
      InUserIdsOf(entries[1..], id);
      if id in UserIdsOf(entries[1..]) {
        var i :| 0 <= i < |entries[1..]| && entries[1..][i] == Collaboration(UserType, id);
        assert entries[i + 1] == Collaboration(UserType, id);
      }
      if exists i :: 0 <= i < |entries| && entries[i] == Collaboration(UserType, id) {
        var i :| 0 <= i < |entries| && entries[i] == Collaboration(UserType, id);
        if i > 0 {
          assert entries[1..][i - 1] == Collaboration(UserType, id);
        }
      }
    }
  }

  /** The collaboration list: the user ids of its entries on exactly 200. */
  function ReadCollaborators(r: CollaborationsResponse): (res: Result<seq<string>>)
    ensures res.Ok? <==> r.status == 200
    ensures res.Ok? ==> res.value == UserIdsOf(r.entries)
    ensures res.Err? ==> res.error == FailGetCollaborations
  {
    Accept(Collaborations, r.status, UserIdsOf(r.entries))
  }

  /** The grant call: passes on exactly 201, and otherwise raises the copy-failure message. */
  function CheckGrant(status: int): (res: Result<()>)
    ensures res.Ok? <==> status == 201
    ensures res.Err? ==> res.error == FailCopyBoxnote
  {
    Accept(Grant, status, ())
  }

  /** The copy call: the new note's id on exactly 201. */
  function ReadCopiedId(r: CopyResponse): (res: Result<string>)
    ensures res.Ok? <==> r.status == 201
    ensures res.Ok? ==> res.value == r.id
    ensures res.Err? ==> res.error == FailCopyBoxnote
  {
    Accept(Copy, r.status, r.id)
  }

  /** The share-link call: the link's url on exactly 200. */
  function ReadSharedLink(r: ShareResponse): (res: Result<string>)
    ensures res.Ok? <==> r.status == 200
    ensures res.Ok? ==> res.value == r.url
    ensures res.Err? ==> res.error == FailCreateSharedLink
  {
    Accept(Share, r.status, r.url)
  }

  /** Waiting for both lookups: both values when both succeed, and otherwise the
      first rejection to settle (`userSettlesFirst` says which one that is when
      both are rejected). */
  function JoinLookups(user: Result<string>, collaborators: Result<seq<string>>, userSettlesFirst: bool)
    : (res: Result<(string, seq<string>)>)
    ensures res.Ok? <==> user.Ok? && collaborators.Ok?
    ensures res.Ok? ==> res.value == (user.value, collaborators.value)
    ensures res.Err? ==> (user.Err? && res.error == user.error) || (collaborators.Err? && res.error == collaborators.error)
    ensures user.Err? && collaborators.Ok? ==> res == Err(user.error)
    ensures user.Ok? && collaborators.Err? ==> res == Err(collaborators.error)
  {
    match (user, collaborators)
    case (Ok(u), Ok(c)) => Ok((u, c))
    case (Err(e), Ok(_)) => Err(e)
    case (Ok(_), Err(e)) => Err(e)
    case (Err(e1), Err(e2)) => Err(if userSettlesFirst then e1 else e2)
  }

  /** The current user is granted access only when not already a collaborator. */
  predicate NeedsGrant(userId: string, accessibleUserIds: seq<string>)
  {
    userId !in accessibleUserIds
  }

  /** A grant is needed exactly when no collaboration of the template is a user
      collaboration for the current user. */
  lemma GrantNeededIffNotCollaborator(userId: string, entries: seq<Collaboration>)
    ensures NeedsGrant(userId, UserIdsOf(entries)) <==>
            forall i :: 0 <= i < |entries| ==> entries[i] != Collaboration(UserType, userId)
  {
    InUserIdsOf(entries, userId);
  }
}
