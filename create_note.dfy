/** The create-note flow: token, then the user lookup and the collaboration
    list side by side, then a grant if the user is not yet a collaborator, then
    the copy, the share link and the stored record. Each response is given by a
    script; the flow records every request it issues in a call log. */
module NoteCreation {
  import opened BoxTypes
  import opened BoxSteps
  import opened NoteLinks

  /** What the flow reads from the host: the shown event and the signed-in user. */
  datatype Context = Context(eventId: string, subject: string, email: string)

  /** One response per call. The grant response is used only when a grant is
      issued; `userSettlesFirst` says which lookup settles first. */
  datatype Script = Script(
    token: TokenResponse,
    user: UserSearchResponse,
    collaborations: CollaborationsResponse,
    userSettlesFirst: bool,
    grantStatus: int,
    copy: CopyResponse,
    share: ShareResponse)

  /** `Created` carries the share link that was stored; `Failed` the error shown. */
  datatype Outcome = Created(sharedLink: string) | Failed(error: ErrorMessage)

  datatype Run = Run(calls: seq<Call>, outcome: Outcome)

  /** The requests issued and the outcome of one run of the flow: the token
      request always comes first, at most seven requests are issued, and only
      the last one may touch the event's datastore. */
  function Plan(ctx: Context, s: Script): (r: Run)
    ensures 1 <= |r.calls| <= 7 && r.calls[0] == RequestToken
    ensures forall i :: 0 <= i < |r.calls| - 1 ==> !r.calls[i].SaveRecord? && !r.calls[i].DeleteRecord?
  {
    match ReadToken(s.token)
    case Err(e) => Run([RequestToken], Failed(e))
    case Ok(token) =>
      var looked := [RequestToken, FindUser(token, ctx.email), ListCollaborations(token, TemplateFileId)];
      match JoinLookups(ReadUserId(s.user), ReadCollaborators(s.collaborations), s.userSettlesFirst)
      case Err(e) => Run(looked, Failed(e))
      case Ok(found) => PlanFromLookups(ctx, s, token, found.0, found.1, looked)
  }

  /** The flow once the token and both lookups have succeeded. */
  function PlanFromLookups(ctx: Context, s: Script, token: string, userId: string,
                           accessibleUserIds: seq<string>, looked: seq<Call>): (r: Run)
  {
    var granting := NeedsGrant(userId, accessibleUserIds);
    var granted := if granting then looked + [AddCollaborator(token, userId, TemplateFileId, EditorRole)] else looked;
    if granting && CheckGrant(s.grantStatus).Err? then Run(granted, Failed(CheckGrant(s.grantStatus).error))
    else
      var copied := granted + [CopyFile(token, userId, TemplateFileId, RootFolderId, NoteName(ctx.subject))];
      match ReadCopiedId(s.copy)
      case Err(e) => Run(copied, Failed(e))
      case Ok(noteId) =>
        var shared := copied + [ShareFile(token, userId, noteId, CompanyAccess)];
        match ReadSharedLink(s.share)
        case Err(e) => Run(shared, Failed(e))
        case Ok(link) => Run(shared + [SaveLink(ctx.eventId, link)], Created(link))
  }

  /** The flow, step by step: each awaited call is logged, and the first
      rejected step returns its error without issuing anything further. */
  method CreateNote(ctx: Context, s: Script) returns (calls: seq<Call>, outcome: Outcome)
    ensures Run(calls, outcome) == Plan(ctx, s)
  {
    calls := [RequestToken];
    var token := ReadToken(s.token);
    if token.Err? {
      return calls, Failed(token.error);
    }
    calls := calls + [FindUser(token.value, ctx.email), ListCollaborations(token.value, TemplateFileId)];
    var user := ReadUserId(s.user);
    var accessible := ReadCollaborators(s.collaborations);
    var joined := JoinLookups(user, accessible, s.userSettlesFirst);
    if joined.Err? {
      return calls, Failed(joined.error);
    }
    var userId := joined.value.0;
    if !(userId in joined.value.1) {
      calls := calls + [AddCollaborator(token.value, userId, TemplateFileId, EditorRole)];
      var granted := CheckGrant(s.grantStatus);
      if granted.Err? {
        return calls, Failed(granted.error);
      }
    }
    calls := calls + [CopyFile(token.value, userId, TemplateFileId, RootFolderId, NoteName(ctx.subject))];
    var noteId := ReadCopiedId(s.copy);
    if noteId.Err? {
      return calls, Failed(noteId.error);
    }
    calls := calls + [ShareFile(token.value, userId, noteId.value, CompanyAccess)];
    var link := ReadSharedLink(s.share);
    if link.Err? {
      return calls, Failed(link.error);
    }
    calls := calls + [SaveLink(ctx.eventId, link.value)];
    outcome := Created(link.value);
  }

  /** Every step of the script passes, the grant only when it is issued. */
  predicate AllStepsPass(s: Script)
  {
    s.token.status == 200
    && ReadUserId(s.user).Ok?
    && s.collaborations.status == 200
    && (NeedsGrant(ReadUserId(s.user).value, UserIdsOf(s.collaborations.entries)) ==> s.grantStatus == 201)
    && s.copy.status == 201
    && s.share.status == 200
  }

  /** The flow creates a note exactly when every step passes; it then stores
      exactly the url the share-link call returned, as its last request. */
  lemma CreatedIffAllStepsPass(ctx: Context, s: Script)
    ensures Plan(ctx, s).outcome.Created? <==> AllStepsPass(s)
    ensures Plan(ctx, s).outcome.Created? ==>
              Plan(ctx, s).outcome.sharedLink == s.share.url
              && Plan(ctx, s).calls[|Plan(ctx, s).calls| - 1] == SaveLink(ctx.eventId, s.share.url)
  {
  }

  /** Nothing is stored unless the note was created. */
  lemma NothingStoredOnFailure(ctx: Context, s: Script)
    requires Plan(ctx, s).outcome.Failed?
    ensures forall c :: c in Plan(ctx, s).calls ==> !c.SaveRecord?
  {
  }

  /** A token status other than exactly 200 stops the flow after its first request. */
  lemma TokenRejectionAborts(ctx: Context, s: Script)
    requires s.token.status != 200
    ensures Plan(ctx, s) == Run([RequestToken], Failed(FailGetApiToken))
  {
  }

  /** A rejected lookup stops the flow after both lookups were issued, with the
      error of a rejected lookup: the first to settle when both are rejected. */
  lemma LookupRejectionAborts(ctx: Context, s: Script)
    requires s.token.status == 200
    requires ReadUserId(s.user).Err? || s.collaborations.status != 200
    ensures Plan(ctx, s).calls
            == [RequestToken, FindUser(s.token.accessToken, ctx.email),
                ListCollaborations(s.token.accessToken, TemplateFileId)]
    ensures Plan(ctx, s).outcome.Failed?
    ensures s.collaborations.status == 200 ==> Plan(ctx, s).outcome.error == ReadUserId(s.user).error
    ensures ReadUserId(s.user).Ok? ==> Plan(ctx, s).outcome.error == FailGetCollaborations
    ensures ReadUserId(s.user).Err? && s.collaborations.status != 200 ==>
              Plan(ctx, s).outcome.error
              == (if s.userSettlesFirst then ReadUserId(s.user).error else FailGetCollaborations)
  {
  }

  /** The grant request is issued exactly when the token and both lookups pass
      and the found user has no user collaboration on the template. */
  lemma GrantIssuedIffNotCollaborator(ctx: Context, s: Script)
    ensures (exists c :: c in Plan(ctx, s).calls && c.AddCollaborator?) <==>
            s.token.status == 200 && ReadUserId(s.user).Ok? && s.collaborations.status == 200
            && forall i :: 0 <= i < |s.collaborations.entries| ==>
                 s.collaborations.entries[i] != Collaboration(UserType, ReadUserId(s.user).value)
  {
    var run := Plan(ctx, s);
    if s.token.status == 200 && ReadUserId(s.user).Ok? && s.collaborations.status == 200 {
      GrantNeededIffNotCollaborator(ReadUserId(s.user).value, s.collaborations.entries);
      var token := s.token.accessToken;
      var userId := ReadUserId(s.user).value;
      var looked := [RequestToken, FindUser(token, ctx.email), ListCollaborations(token, TemplateFileId)];
      var grant := AddCollaborator(token, userId, TemplateFileId, EditorRole);
      if NeedsGrant(userId, UserIdsOf(s.collaborations.entries)) {
        assert run.calls[3] == grant;
      } else {
        assert run.calls[..3] == looked;
        assert forall i :: 3 <= i < |run.calls| ==> !run.calls[i].AddCollaborator?;
        assert forall c :: c in run.calls ==> !c.AddCollaborator?;
      }
    }
  }

  /** A rejected grant stops the flow before the copy and reports the
      copy-failure message. */
  lemma GrantRejectionAborts(ctx: Context, s: Script)
    requires s.token.status == 200 && ReadUserId(s.user).Ok? && s.collaborations.status == 200
    requires NeedsGrant(ReadUserId(s.user).value, UserIdsOf(s.collaborations.entries))
    requires s.grantStatus != 201
    ensures Plan(ctx, s).outcome == Failed(FailCopyBoxnote)
    ensures Plan(ctx, s).calls[|Plan(ctx, s).calls| - 1]
            == AddCollaborator(s.token.accessToken, ReadUserId(s.user).value, TemplateFileId, EditorRole)
    ensures forall c :: c in Plan(ctx, s).calls ==> !c.CopyFile?
  {
  }

  /** A copy status other than exactly 201 stops the flow after the copy request. */
  lemma CopyRejectionAborts(ctx: Context, s: Script)
    requires s.token.status == 200 && ReadUserId(s.user).Ok? && s.collaborations.status == 200
    requires NeedsGrant(ReadUserId(s.user).value, UserIdsOf(s.collaborations.entries)) ==> s.grantStatus == 201
    requires s.copy.status != 201
    ensures Plan(ctx, s).outcome == Failed(FailCopyBoxnote)
    ensures Plan(ctx, s).calls[|Plan(ctx, s).calls| - 1].CopyFile?
    ensures forall c :: c in Plan(ctx, s).calls ==> !c.ShareFile?
  {
  }

  /** A share-link status other than exactly 200 stops the flow before anything is stored. */
  lemma ShareRejectionAborts(ctx: Context, s: Script)
    requires s.token.status == 200 && ReadUserId(s.user).Ok? && s.collaborations.status == 200
    requires NeedsGrant(ReadUserId(s.user).value, UserIdsOf(s.collaborations.entries)) ==> s.grantStatus == 201
    requires s.copy.status == 201 && s.share.status != 200
    ensures Plan(ctx, s).outcome == Failed(FailCreateSharedLink)
    ensures Plan(ctx, s).calls[|Plan(ctx, s).calls| - 1].ShareFile?
  {
  }

  /** A run that passes every step issues, in order: the token, both lookups,
      the grant when needed, a copy of the template named after the event into
      the root folder, a company share link for the copy, and the record of the
      returned url on the event. */
  lemma SuccessfulRunCalls(ctx: Context, s: Script)
    requires AllStepsPass(s)
    ensures var token, userId := s.token.accessToken, ReadUserId(s.user).value;
            var looked := [RequestToken, FindUser(token, ctx.email), ListCollaborations(token, TemplateFileId)];
            var grant := if NeedsGrant(userId, UserIdsOf(s.collaborations.entries))
                         then [AddCollaborator(token, userId, TemplateFileId, EditorRole)] else [];
            Plan(ctx, s).calls
            == looked + grant
               + [CopyFile(token, userId, TemplateFileId, "0", ctx.subject + ".boxnote"),
                  ShareFile(token, userId, s.copy.id, "company"),
                  SaveRecord("/api/v1/schedule/events/" + ctx.eventId + "/datastore/jp.co.cybozu.schedule.box",
                             LinkRecord(s.share.url))]
  {
    var token, userId := s.token.accessToken, ReadUserId(s.user).value;
    var looked := [RequestToken, FindUser(token, ctx.email), ListCollaborations(token, TemplateFileId)];
    var grant := if NeedsGrant(userId, UserIdsOf(s.collaborations.entries))
                 then [AddCollaborator(token, userId, TemplateFileId, EditorRole)] else [];
    assert Plan(ctx, s).calls
           == looked + grant
              + [CopyFile(token, userId, TemplateFileId, RootFolderId, NoteName(ctx.subject)),
                 ShareFile(token, userId, s.copy.id, CompanyAccess),
                 SaveLink(ctx.eventId, s.share.url)];
    NoteNameSpelledOut(ctx.subject);
    DatastorePathSpelledOut(ctx.eventId);
  }

  /** The copied note's name with its extension written out. */
  lemma NoteNameSpelledOut(subject: string)
    ensures NoteName(subject) == subject + ".boxnote"
  {
  }

  /** An event's record path with its constant parts written out. */
  lemma DatastorePathSpelledOut(eventId: string)
    ensures DatastorePath(eventId)
            == "/api/v1/schedule/events/" + eventId + "/datastore/jp.co.cybozu.schedule.box"
  {
  }
}
