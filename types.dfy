/** The values the plug-in exchanges with the document service (through the host's
    proxy) and with the host's per-event datastore. Responses are taken as already
    parsed: a status code plus the fields of the body the plug-in reads. */
module BoxTypes {

  datatype Option<T> = None | Some(value: T)

  /** The errors the plug-in raises, one per message the plug-in raises, plus the
      runtime type error of reading a field that an unexpected body lacks. */
  datatype ErrorMessage =
    | FailGetApiToken
    | FailGetUserId
    | FailGetCollaborations
    | FailCopyBoxnote
    | FailCreateSharedLink
    | FailGetElements
    | MalformedBody

  datatype Result<T> = Ok(value: T) | Err(error: ErrorMessage)

  /** The six calls to the document service that the create flow can make. */
  datatype Step = Token | UserLookup | Collaborations | Grant | Copy | Share

  /** The one status code each call accepts; any other code is a failure. */
  function ExpectedStatus(step: Step): int
  {
    match step
    case Token => 200
    case UserLookup => 200
    case Collaborations => 200
    case Grant => 201
    case Copy => 201
    case Share => 200
  }

  /** The error each call raises when its status is not the expected one. A
      rejected grant raises the copy-failure message. */
  function StepError(step: Step): ErrorMessage
  {
    match step
    case Token => FailGetApiToken
    case UserLookup => FailGetUserId
    case Collaborations => FailGetCollaborations
    case Grant => FailCopyBoxnote
    case Copy => FailCopyBoxnote
    case Share => FailCreateSharedLink
  }

  /** Identifier of the template note that every new note is copied from. */
  const TemplateFileId: string := "XXXXXXXX"
  /** Key under which the share link is stored in an event's datastore. */
  const DatastoreKey: string := "jp.co.cybozu.schedule.box"
  const UserType: string := "user"
  const EditorRole: string := "editor"
  const RootFolderId: string := "0"
  const CompanyAccess: string := "company"

  datatype TokenResponse = TokenResponse(status: int, accessToken: string)

  /** A user search: `total_count` and the ids of `entries`, in order. */
  datatype UserSearchResponse = UserSearchResponse(status: int, totalCount: int, entryIds: seq<string>)

  /** One collaboration of the template file: its `accessible_by` type and id. */
  datatype Collaboration = Collaboration(accessibleType: string, accessibleId: string)

  datatype CollaborationsResponse = CollaborationsResponse(status: int, entries: seq<Collaboration>)

  datatype CopyResponse = CopyResponse(status: int, id: string)

  datatype ShareResponse = ShareResponse(status: int, url: string)

  /** The value stored in an event's datastore: `{ sharedLink }`. */
  datatype LinkRecord = LinkRecord(sharedLink: string)

  /** A request the plug-in issues, with the arguments that vary between runs. */
  datatype Call =
    | RequestToken
    | FindUser(token: string, email: string)
    | ListCollaborations(token: string, fileId: string)
    | AddCollaborator(token: string, userId: string, fileId: string, role: string)
    | CopyFile(token: string, asUser: string, fileId: string, parentId: string, name: string)
    | ShareFile(token: string, asUser: string, fileId: string, access: string)
    | SaveRecord(path: string, record: LinkRecord)
    | DeleteRecord(path: string)
}
