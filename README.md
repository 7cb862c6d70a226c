# wsTextEditor — a verified model of the collaborative editor's rules

wsTextEditor is a Spring collaborative editor with a small JavaScript client. Beneath its HTTP, RabbitMQ and STOMP plumbing it keeps a few tables and applies sequential rules to them. This project models those rules in Dafny and proves properties of them.

The tables are users, documents, collaborator records `(document, user, level)`, comments, tasks, the audit log, the online-user set and the search index. Two append-only logs stand for the transports: one of broker publishes `(exchange, routing key, message)` and one of STOMP sends `(destination, message)`.

All of this lives in one `Store.World` object. Each service or controller module has methods over it, and each method's `modifies` names only the table fields that method may change. Each method's `ensures` gives the exact new tables and the response, including every refusal and its exception class and message, as a function of the old state.

The modules are:

- `JavaLang`: the Java library behaviour the code depends on.
  - `String.split`, which drops trailing empty fields.
  - `trim`, ASCII case folding, `lastIndexOf` and `Long.parseLong`.
  - Exceptions as a `Result` datatype.
- `Entities` and `Store`: the records, and the world with its repository lookups.
  - A single-result user query reports "ambiguous" when two rows match. Spring then throws.
- `DocumentModel` and `CommentModel`: the JPA entities Document and Comment, as classes.
  - Document holds the tag codec and `prePersist`.
  - Comment holds the like list.
- `PermissionService`: the permission engine.
  - The owner is OWNER. Otherwise the explicit record decides, and with no record the level is VIEWER.
  - Editing needs OWNER or EDITOR.
  - Inviting needs an explicit OWNER record.
  - It is used by `CollaboratorController`, `DocumentsController` and `EditorController`.
- `CommentService`, `CommentController` and `TaskService`: comment and task mutations. Their contracts fix the order of publish and save, and of the entries the controllers write themselves.
- `MessageProducer` and `MessageConsumer`: exchange and routing-key choice, and the dispatch on `(type, action)` to a broadcast or a drop.
- `WebSocketNotification` and `EventListener`: the presence set and its marker broadcast.
- `DocumentSyncService` and `DocumentSynAspect`: the search projection, and when the index is written around the controller call.
- `ActionLogAspect`, `ActionLogService` and `ActionLogController`: classification of intercepted calls into audit entries, and the per-user log operations.
- `AuthController` and `UserProfileController`: uniqueness checks on the user table, password changes and avatar names.
- `GlobalExceptionHandler` and `GlobalExceptionAspect`: the exception-to-status mapping, and the after-throwing diagnostics. The diagnostics cover the client address, the argument filter, the trace id and the diagnostic context.
- `AuditedEndpoints`: the intercepted endpoints with the audit advice around them. Each method runs the endpoint, then `OperateCUDLog` on its real argument list, so its contract gives the entry the advice writes, or the exception it raises.
- `WebSocketManager`: the browser's connection manager as a class.
  - Its state is the connected flag, the connection promise, the subscription map and the outbound FIFO queue.
  - Browser callbacks are separate methods.

Time, fresh ids, UUIDs, the password encoder, broker and STOMP availability and the outcome of each client-side send are parameters of the operations that use them.

## Model

| member | source | states |
|---|---|---|
| Store.FindUser | src/main/java/com/example/wsTextEditor/repository/UserRepository.java:9-15 | a single-result user query: not found exactly when no row matches, found gives the one matching row, ambiguous when two rows match (the query then throws) |
| Store.RequireUser | src/main/java/com/example/wsTextEditor/repository/UserRepository.java:9 | `findByUsername(...).orElseThrow(...)`: a row index exactly when the lookup finds one, the caller's exception when none matches |
| Store.CurrentUser | src/main/java/com/example/wsTextEditor/repository/UserRepository.java:9 | the authenticated user's row: its username is the principal |
| Store.FindDocument | src/main/java/com/example/wsTextEditor/repository/DocumentRepository.java:13 | the row holding a uniqueId; none when no row has it; null never matches |
| Store.FindDocumentAfterUpdate | src/main/java/com/example/wsTextEditor/repository/DocumentRepository.java:13 | a saved row that keeps its uniqueId is found again by it |
| Store.SaveKey | src/main/java/com/example/wsTextEditor/service/CommentService.java:50 | a save with an id naming a stored row merges into that row; a null id or one naming no row inserts under the generated key |
| Store.FindRecord | src/main/java/com/example/wsTextEditor/repository/DocumentCollaboratorRepository.java:39 | the first permission record of a (document, user) pair, or none exactly when the pair has none |
| Store.FindRecordAppend | src/main/java/com/example/wsTextEditor/repository/DocumentCollaboratorRepository.java:39 | appending a record never changes the record found for a pair that already had one, and makes the new pair findable |
| Store.RecordsOfUser | src/main/java/com/example/wsTextEditor/repository/DocumentCollaboratorRepository.java:31 | a record is listed exactly when it is one of the table's records for that user |
| Store.DocumentsOfRecords | src/main/java/com/example/wsTextEditor/controller/DocumentsController.java:211-214 | only existing documents reached through some record, and every record's existing document is listed |
| Entities.LevelValueOf | src/main/java/com/example/wsTextEditor/model/DocumentCollaborator.java:9-13 | `PermissionLevel.valueOf`: null throws NullPointerException; an unknown name throws IllegalArgumentException "No enum constant" followed by the enum's canonical name and the name; a success is the level with that name |
| Entities.LevelValueOfName | src/main/java/com/example/wsTextEditor/model/DocumentCollaborator.java:9-13 | valueOf inverts name() for every level |
| PermissionService.LevelOf | src/main/java/com/example/wsTextEditor/service/DocumentPermissionService.java:130-143 | the owner is OWNER whatever the records say; a non-owner with a record has that record's level; a non-owner without one is VIEWER |
| PermissionService.CanInvite | src/main/java/com/example/wsTextEditor/service/DocumentPermissionService.java:114-122 | no explicit record means no invite right; a non-owner with a record may invite exactly when that level is OWNER; whoever may invite may also edit |
| PermissionService.CanEdit | src/main/java/com/example/wsTextEditor/service/DocumentPermissionService.java:151-154 | edit iff the level is OWNER or EDITOR (not VIEWER); the owner may always edit |
| PermissionService.CanView | src/main/java/com/example/wsTextEditor/service/DocumentPermissionService.java:162-165 | every user may view, since the level is never null |
| PermissionService.CollaboratorsOf | src/main/java/com/example/wsTextEditor/service/DocumentPermissionService.java:172-174 | a record is listed exactly when it is one of the table's records for that document |
| PermissionService.Invitation | src/main/java/com/example/wsTextEditor/service/DocumentPermissionService.java:48-72 | no change unless the inviter holds an OWNER record; then an ambiguous user lookup throws IncorrectResultSizeDataAccessException, an unknown invitee adds nothing, an invitee with a record is left as they are, and any other invitee gets exactly one record with the requested level |
| PermissionService.InitializeDocumentPermissions | src/main/java/com/example/wsTextEditor/service/DocumentPermissionService.java:35-38 | appends one OWNER record for the owner and changes nothing else |
| PermissionService.Invite | src/main/java/com/example/wsTextEditor/service/DocumentPermissionService.java:48-106 | the records grow by exactly the invitation's record; the result says whether one was added |
| PermissionService.InviteUserToDocument | src/main/java/com/example/wsTextEditor/service/DocumentPermissionService.java:48-72 | Invite with the invitee found by username |
| PermissionService.InviteUserToDocumentByUuid | src/main/java/com/example/wsTextEditor/service/DocumentPermissionService.java:82-106 | Invite with the invitee found by invitation UUID |
| PermissionService.OwnerMayEdit | src/main/java/com/example/wsTextEditor/service/DocumentPermissionService.java:151-165 | the owner may edit and view whatever the records say |
| PermissionService.EditIffOwnerOrEditor | src/main/java/com/example/wsTextEditor/service/DocumentPermissionService.java:151-165 | edit is allowed exactly when the level is not VIEWER; every user may view |
| PermissionService.StrangerIsViewer | src/main/java/com/example/wsTextEditor/service/DocumentPermissionService.java:130-143 | a non-owner without a record is a VIEWER who may neither edit nor invite |
| PermissionService.OwnerWithoutRecordCannotInvite | src/main/java/com/example/wsTextEditor/service/DocumentPermissionService.java:114-122 | in any table without a record for the owner, the owner's level is OWNER but the owner may not invite: invitation needs an explicit OWNER record |
| PermissionService.InitializedOwnerMayInvite | src/main/java/com/example/wsTextEditor/service/DocumentPermissionService.java:35-38 | after initialisation the owner holds an OWNER record and may invite |
| PermissionService.InvitationGrantsLevel | src/main/java/com/example/wsTextEditor/service/DocumentPermissionService.java:48-72 | a successful invitation gives the invitee, when not the owner, exactly the requested level |
| PermissionService.InvitationKeepsOthers | src/main/java/com/example/wsTextEditor/service/DocumentPermissionService.java:48-72 | a new record changes no other user's level or invite right |
| PermissionService.InvitationKeepsRecordsUnique | src/main/java/com/example/wsTextEditor/service/DocumentPermissionService.java:48-72 | invitations keep at most one record per (document, user) pair |
| PermissionService.UniqueRecordIsOnlyMatch | src/main/java/com/example/wsTextEditor/repository/DocumentCollaboratorRepository.java:39 | with unique records, the record at a pair's position is the one the lookup finds |
| PermissionService.InitializationKeepsRecordsUnique | src/main/java/com/example/wsTextEditor/service/DocumentPermissionService.java:35-38 | the owner's record of a new document keeps the records unique |
| PermissionService.CollaboratorsOfAppend | src/main/java/com/example/wsTextEditor/service/DocumentPermissionService.java:172-174 | the listing of a concatenation is the concatenation of the listings: table order is kept |
| DocumentModel.TagList | src/main/java/com/example/wsTextEditor/model/Document.java:130-135 | no tags for a null or empty column; no tag read back contains a ',' |
| DocumentModel.Document.GetTagList | src/main/java/com/example/wsTextEditor/model/Document.java:130-135 | an entity with null or empty tags gives no tags; no tag it gives contains a ',' |
| DocumentModel.TagsColumn | src/main/java/com/example/wsTextEditor/model/Document.java:141-147 | the column is null exactly when the list is null or empty |
| DocumentModel.TagListRoundTrip | src/main/java/com/example/wsTextEditor/model/Document.java:130-147 | reading back a stored comma-free list whose last tag is non-empty gives the list |
| DocumentModel.TagListKeepsTags | src/main/java/com/example/wsTextEditor/model/Document.java:130-147 | storing a comma-free list and reading it back keeps exactly its non-empty tags |
| DocumentModel.Document.SetTagList | src/main/java/com/example/wsTextEditor/model/Document.java:141-147 | the tags field becomes the column of the list; nothing else changes |
| DocumentModel.Document.PrePersist | src/main/java/com/example/wsTextEditor/model/Document.java:58-64 | a missing uniqueId gets the fresh UUID, an existing one is kept; both timestamps are set |
| DocumentModel.Document.PreUpdate | src/main/java/com/example/wsTextEditor/model/Document.java:71-73 | only the modification time changes |
| DocumentModel.Flushed | src/main/java/com/example/wsTextEditor/model/Document.java:70-73 | an entity equal to its loaded row is written back unchanged; a changed one also gets the new modification time |
| DocumentModel.Document.Flush | src/main/java/com/example/wsTextEditor/model/Document.java:70-73 | the update callback runs only for an entity that differs from the row it was loaded from: an unchanged entity keeps its modification time |
| CommentModel.WithLike | src/main/java/com/example/wsTextEditor/model/Comment.java:107-117 | the user is in the result; the list grows by the user exactly when absent |
| CommentModel.RemoveFirst | src/main/java/com/example/wsTextEditor/model/Comment.java:120-125 | removes exactly one occurrence of the user (multiset difference); unchanged when the user is absent, one shorter otherwise |
| CommentModel.FirstIndex | src/main/java/com/example/wsTextEditor/model/Comment.java:122 | `indexOf`: a position holding the user with no earlier occurrence |
| CommentModel.RemoveFirstSplices | src/main/java/com/example/wsTextEditor/model/Comment.java:120-125 | the removal cuts the list at the first occurrence: the part before it followed by the part after it |
| CommentModel.WithLikeNoDuplicates | src/main/java/com/example/wsTextEditor/model/Comment.java:107-117 | adding a like keeps a duplicate-free list duplicate-free |
| CommentModel.RemoveFirstRemovesUser | src/main/java/com/example/wsTextEditor/model/Comment.java:120-125 | on a duplicate-free list the user is gone after one removal |
| CommentModel.LikeThenUnlike | src/main/java/com/example/wsTextEditor/model/Comment.java:107-125 | liking then unliking restores a list the user was not in |
| CommentModel.Comment.constructor | src/main/java/com/example/wsTextEditor/model/Comment.java:39-42 | an empty like list and no other field set |
| CommentModel.Comment.WithText | src/main/java/com/example/wsTextEditor/model/Comment.java:44-50 | content, author and document set, an empty like list |
| CommentModel.Comment.GetLikeCount | src/main/java/com/example/wsTextEditor/model/Comment.java:102-104 | the size of the like list, 0 for a null list |
| CommentModel.Comment.AddLikeUser | src/main/java/com/example/wsTextEditor/model/Comment.java:107-117 | a null list becomes a list; the user is appended unless present; the result says whether the list changed |
| CommentModel.Comment.RemoveLikeUser | src/main/java/com/example/wsTextEditor/model/Comment.java:120-125 | false and no change for a null list or an absent user, else the first occurrence is removed |
| DocumentsController.Saved | src/main/java/com/example/wsTextEditor/controller/DocumentsController.java:85-93 | the content is always replaced; language and title only when non-empty; identity and tags are kept; the row is unchanged exactly when nothing differs, and only a changed row gets the new modification time |
| DocumentsController.SavedIdempotent | src/main/java/com/example/wsTextEditor/controller/DocumentsController.java:85-93 | saving the same content twice is saving it once: the second save changes nothing, not even the modification time |
| DocumentsController.SaveDocument | src/main/java/com/example/wsTextEditor/controller/DocumentsController.java:65-96 | unknown document, then unknown user, then a VIEWER are refused in that order with the source's exceptions, nothing saved; otherwise the row becomes the saved row |
| DocumentsController.WithoutDocument | src/main/java/com/example/wsTextEditor/controller/DocumentsController.java:119 | a record is kept exactly when it belongs to another document |
| DocumentsController.RemoveAt | src/main/java/com/example/wsTextEditor/controller/DocumentsController.java:121 | one row shorter: the rows before the deleted one keep their place, the later ones move up by one |
| DocumentsController.WithoutDocumentLeavesNone | src/main/java/com/example/wsTextEditor/controller/DocumentsController.java:119 | no record of the deleted document is left |
| DocumentsController.WithoutDocumentKeepsOthers | src/main/java/com/example/wsTextEditor/controller/DocumentsController.java:119 | the record any user has on another document is unchanged |
| DocumentsController.WithoutDocumentKeepsRecordsUnique | src/main/java/com/example/wsTextEditor/repository/DocumentCollaboratorRepository.java:75 | dropping a document's records keeps at most one record per pair |
| DocumentsController.DeleteKeepsOtherLevels | src/main/java/com/example/wsTextEditor/controller/DocumentsController.java:116-121 | every level on every other document is unchanged by a deletion |
| DocumentsController.DeleteDocument | src/main/java/com/example/wsTextEditor/controller/DocumentsController.java:106-130 | unknown user, then unknown document, then a non-OWNER level are refused with nothing changed; otherwise the document and all its records are removed; unique records stay unique |
| DocumentsController.UpdateDocumentTitle | src/main/java/com/example/wsTextEditor/controller/DocumentsController.java:133-149 | an unknown user, then an unknown document are refused with nothing changed; otherwise any known user retitles the document, even to null, with no permission check; the modification time moves only when the title differs |
| DocumentsController.NewTagsShape | src/main/java/com/example/wsTextEditor/controller/DocumentsController.java:185-195 | every new tag is non-empty, trimmed, and comma-free |
| DocumentsController.MergeTags | src/main/java/com/example/wsTextEditor/controller/DocumentsController.java:189-195 | the existing tags plus every trimmed non-empty piece, and nothing else |
| DocumentsController.AddingKeepsTags | src/main/java/com/example/wsTextEditor/controller/DocumentsController.java:187-197 | adding tags never loses an existing one |
| DocumentsController.AddingIdempotent | src/main/java/com/example/wsTextEditor/controller/DocumentsController.java:187-197 | adding the same tag string a second time changes nothing further |
| DocumentsController.AddTagsToDocument | src/main/java/com/example/wsTextEditor/controller/DocumentsController.java:160-201 | unknown user, unknown document, no edit right, and a blank tag string are refused in that order with nothing saved; otherwise the merged tags are saved, the modification time moves only when the column changes, and every other row is kept |
| DocumentsController.MergedListShape | src/main/java/com/example/wsTextEditor/controller/DocumentsController.java:189-197 | a list holding the merged set is comma-free and reads back as exactly the merged tags |
| DocumentsController.Tagged | src/main/java/com/example/wsTextEditor/controller/DocumentsController.java:185-198 | the saved row's tags read back as the merge of old and new tags; an unchanged tags column leaves the row as it was; otherwise only the tags and the modification time change |
| DocumentsController.TagsOf | src/main/java/com/example/wsTextEditor/controller/DocumentsController.java:215 | a tag is in the union exactly when some listed document holds it |
| DocumentsController.GetTags | src/main/java/com/example/wsTextEditor/controller/DocumentsController.java:203-218 | unknown user throws; otherwise the union of the tags of the documents the user has records for |
| DocumentsController.WithTags | src/main/java/com/example/wsTextEditor/repository/DocumentRepository.java:16 | a document is listed exactly when its whole tags column equals the tag |
| DocumentsController.GetDocumentsByTag | src/main/java/com/example/wsTextEditor/controller/DocumentsController.java:226-236 | unknown user throws; otherwise every document whose tags column equals the tag, whatever the user's permissions |
| EditorController.WithTagContaining | src/main/java/com/example/wsTextEditor/repository/DocumentRepository.java:19 | exactly the documents whose lower-cased tags column contains the lower-cased tag |
| EditorController.TagMatchIgnoresCase | src/main/java/com/example/wsTextEditor/repository/DocumentRepository.java:19 | matching does not depend on the case of the filter |
| EditorController.OwnTagMatches | src/main/java/com/example/wsTextEditor/repository/DocumentRepository.java:19 | a document matches each tag it holds |
| EditorController.Dashboard | src/main/java/com/example/wsTextEditor/controller/EditorController.java:79-120 | no principal redirects to login; with a non-empty filter, every document matching a trimmed non-empty piece, each once, regardless of permission; otherwise the documents of the user's records |
| EditorController.Matching | src/main/java/com/example/wsTextEditor/controller/EditorController.java:91-101 | the filter loop: a document is collected exactly when it matches some trimmed non-empty piece |
| EditorController.BlankFilterShowsNothing | src/main/java/com/example/wsTextEditor/controller/EditorController.java:89-103 | a filter of blanks is non-empty, so the dashboard shows no documents |
| EditorController.CreateDocument | src/main/java/com/example/wsTextEditor/controller/EditorController.java:129-146 | a new row owned by the caller with a fresh uniqueId and an OWNER record, so the caller may edit and invite; an unknown caller changes nothing; unique records stay unique |
| EditorController.JoinDocument | src/main/java/com/example/wsTextEditor/controller/EditorController.java:156-164 | to the editor exactly when the document exists, else back with the error message |
| EditorController.Editor | src/main/java/com/example/wsTextEditor/controller/EditorController.java:175-212 | login redirect without principal, dashboard redirect for an unknown document; otherwise the editor with the user's level and edit right; the no-access branch is unreachable |
| EditorController.JoinedDocumentOpens | src/main/java/com/example/wsTextEditor/controller/EditorController.java:156-212 | a document that can be joined opens in the editor for every known user |
| CollaboratorController.InfosOf | src/main/java/com/example/wsTextEditor/controller/DocumentCollaboratorController.java:86-94 | the listing of the document's records mapped pointwise to their (user id, name, level), in record order and of the same length; every record of the document appears and nothing else |
| CollaboratorController.InviteUserByUuid | src/main/java/com/example/wsTextEditor/controller/DocumentCollaboratorController.java:48-70 | unknown document and unknown inviter refused with nothing changed; otherwise the records become the Invite result and a success is logged with the invite description naming the rendered inviter and the document; records stay unique |
| CollaboratorController.GetDocumentCollaborators | src/main/java/com/example/wsTextEditor/controller/DocumentCollaboratorController.java:74-97 | every known user gets the listing of an existing document; the access check never refuses |
| CollaboratorController.PermissionUpdate | src/main/java/com/example/wsTextEditor/controller/DocumentCollaboratorController.java:100-121 | unknown document, unparsable user id, missing record ("Invalid Argument" + userId + "or" + docId) and bad level name fail in that order, and it succeeds exactly when none of them holds; a success rewrites only the level of the pair's record, every other field and record kept |
| CollaboratorController.UpdateCollaboratorPermission | src/main/java/com/example/wsTextEditor/controller/DocumentCollaboratorController.java:100-121 | the records become the PermissionUpdate result, or are unchanged on failure; unique records stay unique |
| CollaboratorController.WithoutRecord | src/main/java/com/example/wsTextEditor/repository/DocumentCollaboratorRepository.java:75 | exactly the records of other (document, user) pairs; the pair is no longer found; a table without the pair is returned unchanged; never longer |
| CollaboratorController.Removal | src/main/java/com/example/wsTextEditor/controller/DocumentCollaboratorController.java:125-138 | unknown caller, unknown document, unparsable id fail in that order, and it succeeds exactly when none holds; a success is WithoutRecord of the pair |
| CollaboratorController.RemoveCollaborator | src/main/java/com/example/wsTextEditor/controller/DocumentCollaboratorController.java:125-138 | the records become the Removal result and one entry naming document and user is logged; nothing changes on failure; unique records stay unique |
| CollaboratorController.InviteeIsListed | src/main/java/com/example/wsTextEditor/controller/DocumentCollaboratorController.java:48-97 | after a successful invitation the invitee appears in the listing with the requested level |
| CollaboratorController.UpdateSetsLevel | src/main/java/com/example/wsTextEditor/controller/DocumentCollaboratorController.java:100-121 | after an update a non-owner collaborator has exactly the new level |
| CollaboratorController.RemovalMakesViewer | src/main/java/com/example/wsTextEditor/controller/DocumentCollaboratorController.java:125-138 | after a removal a non-owner falls back to VIEWER on that document |
| CollaboratorController.ViewerCanPromoteSelf | src/main/java/com/example/wsTextEditor/controller/DocumentCollaboratorController.java:100-121 | a VIEWER who updates their own record to OWNER becomes OWNER and may invite |
| CollaboratorController.CheckedPermissionUpdate | src/main/java/com/example/wsTextEditor/controller/DocumentCollaboratorController.java:100-121 | the update succeeds only for a caller whose level is OWNER; any other caller is refused |
| CollaboratorController.CheckedUpdateKeepsNonOwnersOut | src/main/java/com/example/wsTextEditor/controller/DocumentCollaboratorController.java:100-121 | a checked update succeeds only for an OWNER caller, and changes no other user's level |
| CollaboratorController.UpdateKeepsOtherLookups | src/main/java/com/example/wsTextEditor/controller/DocumentCollaboratorController.java:115-116 | rewriting one record's level keeps every other pair's record |
| CollaboratorController.PermissionUpdateKeepsRecordsUnique | src/main/java/com/example/wsTextEditor/controller/DocumentCollaboratorController.java:100-121 | rewriting one record's level keeps at most one record per pair |
| CollaboratorController.WithoutRecordKeepsRecordsUnique | src/main/java/com/example/wsTextEditor/repository/DocumentCollaboratorRepository.java:75 | dropping a pair's records keeps at most one record per pair |
| CollaboratorController.RemovalKeepsRecordsUnique | src/main/java/com/example/wsTextEditor/controller/DocumentCollaboratorController.java:125-138 | a successful removal keeps at most one record per pair |
| ActionLogService.LogAction | src/main/java/com/example/wsTextEditor/service/ActionLogService.java:15-21 | appends one entry with the caller's name, the action and description, and no document |
| ActionLogService.LogActionOnDocument | src/main/java/com/example/wsTextEditor/service/ActionLogService.java:24-31 | appends one entry that also names the document |
| ActionLogController.LogsOf | src/main/java/com/example/wsTextEditor/repository/ActionLogRepository.java:15 | an entry is listed exactly when the user wrote it; never longer than the table |
| ActionLogController.LogsWithAction | src/main/java/com/example/wsTextEditor/repository/ActionLogRepository.java:16 | an entry is listed exactly when it records that action |
| ActionLogController.LogsNotOf | src/main/java/com/example/wsTextEditor/repository/ActionLogRepository.java:21 | an entry is kept exactly when another user wrote it |
| ActionLogController.NewestFirst | src/main/java/com/example/wsTextEditor/repository/ActionLogRepository.java:15-16 | the entries in reverse insertion order, which is newest first |
| ActionLogController.GetUserLogs | src/main/java/com/example/wsTextEditor/controller/ActionLogController.java:31-38 | an entry is listed exactly when the caller wrote it |
| ActionLogController.GetLogsByAction | src/main/java/com/example/wsTextEditor/controller/ActionLogController.java:41-54 | an entry is listed exactly when it records that action and the caller wrote it |
| ActionLogController.ClearLogs | src/main/java/com/example/wsTextEditor/controller/ActionLogController.java:57-74 | fails with IllegalArgumentException when the caller has no entries; otherwise every entry of theirs is removed |
| ActionLogController.ClearLeavesNothing | src/main/java/com/example/wsTextEditor/controller/ActionLogController.java:57-74 | after a clear the user has no entries, so a second clear fails |
| ActionLogController.ClearKeepsOthers | src/main/java/com/example/wsTextEditor/controller/ActionLogController.java:68 | clearing keeps every other user's entries, in order |
| ActionLogController.LogsOfAppend | src/main/java/com/example/wsTextEditor/repository/ActionLogRepository.java:15 | a user's entries of a concatenation are the concatenation of their entries |
| ActionLogController.LogsOfNewestFirst | src/main/java/com/example/wsTextEditor/repository/ActionLogRepository.java:15 | filtering by user commutes with newest-first ordering |
| ActionLogController.FiltersCommute | src/main/java/com/example/wsTextEditor/controller/ActionLogController.java:46-50 | filtering by action then user is filtering by user then action |
| ActionLogController.ByActionIsOwnHistory | src/main/java/com/example/wsTextEditor/controller/ActionLogController.java:41-54 | the action listing is the caller's own history restricted to that action |
| ActionLogAspect.AsString | src/main/java/com/example/wsTextEditor/aop/ActionLogAspect.java:75 | a string or null argument is cast, anything else throws ClassCastException |
| ActionLogAspect.CreateEntry | src/main/java/com/example/wsTextEditor/aop/ActionLogAspect.java:51-64 | a comment argument gives a comment entry, a task argument a task entry, null throws NullPointerException, anything else ClassCastException |
| ActionLogAspect.TaskUpdateEntry | src/main/java/com/example/wsTextEditor/aop/ActionLogAspect.java:84-86 | the entry names the task's title and document; a non-task second argument throws |
| ActionLogAspect.ByFirstArgument | src/main/java/com/example/wsTextEditor/aop/ActionLogAspect.java:93-98 | the entry's document id is the first argument, cast to a string |
| ActionLogAspect.Classify | src/main/java/com/example/wsTextEditor/aop/ActionLogAspect.java:42-110 | every entry is one of the four actions; create in the editor logs 创建文档 without document; a comment or task created elsewhere logs its content or title with its document id; an update in a Document* controller logs the method suffix and the first argument as document id; an update elsewhere with one argument throws index 1 out of bounds, with a task second argument logs its title and document; delete or remove logs the suffix and id in a Documents* controller and nothing elsewhere; save logs the first argument, and throws without one |
| ActionLogAspect.CheckedAgreesWhereWrittenSucceeds | src/main/java/com/example/wsTextEditor/aop/ActionLogAspect.java:67-88 | where the written classification succeeds the checked one gives the same entry |
| ActionLogAspect.CheckedUpdateNeedsNoSecondArgument | src/main/java/com/example/wsTextEditor/aop/ActionLogAspect.java:80-87 | the checked classification never fails on a one-argument update outside the document controllers |
| ActionLogAspect.UpdateProfileThrows | src/main/java/com/example/wsTextEditor/aop/ActionLogAspect.java:80-87 | the profile update is intercepted and its classification throws index 1 out of bounds for length 1 |
| ActionLogAspect.OperateCUDLog | src/main/java/com/example/wsTextEditor/aop/ActionLogAspect.java:37-119 | a throwing target passes through unlogged; otherwise the classification's entry is appended, or its exception replaces the result |
| ActionLogAspect.OperateCUDLogChecked | src/main/java/com/example/wsTextEditor/aop/ActionLogAspect.java:37-119 | the advice with the checked classification |
| ActionLogAspect.Logged | src/main/java/com/example/wsTextEditor/aop/ActionLogAspect.java:113-117 | an entry with a document id goes to the three-argument overload, else to the two-argument one |
| AuditedEndpoints.ParamArg | src/main/java/com/example/wsTextEditor/controller/DocumentsController.java:65-69 | a request parameter reaches the advice as a string exactly when it was sent, else as null |
| AuditedEndpoints.SaveDocumentEntry | src/main/java/com/example/wsTextEditor/aop/ActionLogAspect.java:104-110 | saveDocument logs 保存 with the document id as description suffix and as document |
| AuditedEndpoints.UpdateDocumentTitleEntry | src/main/java/com/example/wsTextEditor/aop/ActionLogAspect.java:67-78 | updateDocumentTitle logs 更新 naming DocumentTitle and the document id |
| AuditedEndpoints.DeleteDocumentEntry | src/main/java/com/example/wsTextEditor/aop/ActionLogAspect.java:89-99 | deleteDocument logs 删除 naming Document and the document id |
| AuditedEndpoints.UpdateCollaboratorPermissionEntry | src/main/java/com/example/wsTextEditor/aop/ActionLogAspect.java:67-78 | updateCollaboratorPermission, in a Document* controller, logs 更新 naming CollaboratorPermission and the document id |
| AuditedEndpoints.RemoveCollaboratorEntry | src/main/java/com/example/wsTextEditor/aop/ActionLogAspect.java:89-103 | removeCollaborator is outside the Documents* controllers, so the advice logs nothing |
| AuditedEndpoints.OtherEndpointEntries | src/main/java/com/example/wsTextEditor/aop/ActionLogAspect.java:43-88 | createDocument logs 创建文档; createComment and createTask log content or title with the document id; updateTaskStatus logs the request body's title and document |
| AuditedEndpoints.AuditedSaveDocument | src/main/java/com/example/wsTextEditor/controller/DocumentsController.java:63-96 | a refused save changes nothing; a save is applied, re-indexed, then logged by the advice |
| AuditedEndpoints.AuditedUpdateDocumentTitle | src/main/java/com/example/wsTextEditor/controller/DocumentsController.java:131-149 | a refusal changes nothing; a retitle is applied, re-indexed, then logged |
| AuditedEndpoints.AuditedDeleteDocument | src/main/java/com/example/wsTextEditor/controller/DocumentsController.java:104-130 | the text key leaves the index whatever happens; a refusal changes nothing else; a deletion removes the row and its records and is logged |
| AuditedEndpoints.AuditedCreateDocument | src/main/java/com/example/wsTextEditor/controller/EditorController.java:127-146 | an unknown caller changes nothing; otherwise the row and OWNER record are created and 创建文档 is logged without a document |
| AuditedEndpoints.AuditedUpdateCollaboratorPermission | src/main/java/com/example/wsTextEditor/controller/DocumentCollaboratorController.java:98-121 | a failed update changes nothing and logs nothing; a success rewrites the level and is logged against the document |
| AuditedEndpoints.AuditedCreateComment | src/main/java/com/example/wsTextEditor/controller/CommentController.java:57-63 | a down broker throws with nothing stored, published or logged; otherwise the authored comment, with the request's content and document, is announced once, stored under its save key and logged by content and document |
| AuditedEndpoints.AuditedUpdateProfile | src/main/java/com/example/wsTextEditor/controller/UserProfileController.java:65-108 | every call throws and none is logged; a profile change the controller accepts is still saved before the index-out-of-bounds error |
| AuditedEndpoints.AuditedCreateTask | src/main/java/com/example/wsTextEditor/controller/TaskController.java:79-87 | a refused check changes nothing; otherwise the task is stored under its save key, announced when the broker is up, and logged by the request's title and document |
| AuditedEndpoints.AuditedUpdateTaskStatus | src/main/java/com/example/wsTextEditor/controller/TaskController.java:95-104 | an unknown id or a refused check changes no task, publishes nothing and logs nothing; otherwise only the completed flag changes, the task is announced when the broker is up, and the entry names the request body's title and document, not the stored task's |
| CommentService.Authored | src/main/java/com/example/wsTextEditor/service/CommentService.java:41-45 | the comment with the caller as author and a non-null like list |
| CommentService.CreateComment | src/main/java/com/example/wsTextEditor/service/CommentService.java:41-51 | the comment is announced first; a refused publish throws and saves nothing; otherwise the authored comment is stored under its own id when that id names a stored comment, else under a fresh id, and the table gains exactly that key |
| CommentService.DeletionCheck | src/main/java/com/example/wsTextEditor/service/CommentService.java:56-68 | unknown comment, unknown user, missing document (its own message) and a null author (NullPointerException) fail in that order; the author or the document's OWNER may delete, exactly; anyone else gets RuntimeException "You are not authorized to delete this comment." |
| CommentService.DeleteComment | src/main/java/com/example/wsTextEditor/service/CommentService.java:56-68 | removes exactly the checked comment and announces nothing |
| CommentService.AuthorMayDelete | src/main/java/com/example/wsTextEditor/service/CommentService.java:56-68 | the author may always delete their own comment |
| CommentService.EditorMayNotDelete | src/main/java/com/example/wsTextEditor/service/CommentService.java:56-68 | an EDITOR who neither wrote the comment nor owns the document may not delete it |
| CommentService.Liked | src/main/java/com/example/wsTextEditor/service/CommentService.java:76-93 | an unknown comment throws, a second like throws IllegalStateException; otherwise the user is added |
| CommentService.Unliked | src/main/java/com/example/wsTextEditor/service/CommentService.java:101-110 | an unknown comment throws, a missing like throws IllegalStateException; otherwise the like is removed |
| CommentService.LikeComment | src/main/java/com/example/wsTextEditor/service/CommentService.java:76-93 | the like is checked, announced, then stored; a refused publish stores nothing |
| CommentService.UnlikeComment | src/main/java/com/example/wsTextEditor/service/CommentService.java:101-110 | the comments become the Unliked result; no announcement |
| CommentService.LikeTwiceFails | src/main/java/com/example/wsTextEditor/service/CommentService.java:76-93 | a second like by the same user is refused |
| CommentService.LikeThenUnlikeRestores | src/main/java/com/example/wsTextEditor/service/CommentService.java:76-110 | liking then unliking restores the like list |
| CommentService.LikesStayDistinct | src/main/java/com/example/wsTextEditor/service/CommentService.java:76-110 | likes keep the list duplicate-free, so one unlike removes the user's like |
| CommentController.DeletionEntry | src/main/java/com/example/wsTextEditor/controller/CommentController.java:75 | the audit entry names the caller, the comment-deletion action and the comment's document |
| CommentController.LikeEntry | src/main/java/com/example/wsTextEditor/controller/CommentController.java:92 | the audit entry names the caller, the like action and the comment's document |
| CommentController.CreateComment | src/main/java/com/example/wsTextEditor/controller/CommentController.java:59-63 | the service's creation with the authenticated user as author: a down broker throws with nothing stored or published; otherwise one announcement and the stored comment, with the caller as author and the request's content and document |
| CommentController.DeleteComment | src/main/java/com/example/wsTextEditor/controller/CommentController.java:68-79 | an unknown comment changes nothing; otherwise the entry is logged and the deletion made, and a failed deletion rolls the entry back |
| CommentController.LikeComment | src/main/java/com/example/wsTextEditor/controller/CommentController.java:83-96 | an unknown comment throws with nothing changed; otherwise the entry is logged first and stays; a refused like or a down broker then changes nothing else; an accepted like is announced and stored |
| CommentController.UnlikeComment | src/main/java/com/example/wsTextEditor/controller/CommentController.java:100-109 | the service's unlike, with no entry |
| TaskService.CanEditTask | src/main/java/com/example/wsTextEditor/service/TaskService.java:108-114 | a missing document or user throws IllegalArgumentException; otherwise true exactly for the document's OWNER |
| TaskService.Permitted | src/main/java/com/example/wsTextEditor/service/TaskService.java:108-114 | a false check becomes IllegalStateException |
| TaskService.Announced | src/main/java/com/example/wsTextEditor/service/TaskService.java:148-164 | one task publish when the broker is up, none otherwise |
| TaskService.SendTaskNotification | src/main/java/com/example/wsTextEditor/service/TaskService.java:148-164 | the publish is attempted, and a refusal is swallowed |
| TaskService.CreateTask | src/main/java/com/example/wsTextEditor/service/TaskService.java:68-84 | the caller becomes the creator; a refused check stores and announces nothing; otherwise the task is stored under its own id when that names a stored task, else under a fresh id, then announced |
| TaskService.DeleteTask | src/main/java/com/example/wsTextEditor/service/TaskService.java:93-105 | an unknown id throws RuntimeException; an owner's deletion is announced, then the task removed |
| TaskService.UpdateTaskStatus | src/main/java/com/example/wsTextEditor/service/TaskService.java:123-141 | an unknown id throws IllegalArgumentException; an owner sets only the completed flag, and the task is announced |
| TaskService.EditorMayNotChangeTasks | src/main/java/com/example/wsTextEditor/service/TaskService.java:108-114 | an EDITOR may not change a document's tasks |
| TaskService.OwnerMayChangeTasks | src/main/java/com/example/wsTextEditor/service/TaskService.java:108-114 | the document's owner may, record or no record |
| TaskService.TaskWithoutDocumentIsLocked | src/main/java/com/example/wsTextEditor/service/TaskService.java:108-114 | a task without a document id can be changed by nobody: the check fails with the null document id message |
| MessageProducer.QueueFor | src/main/java/com/example/wsTextEditor/config/RabbitMQConfig.java:15-20 | each exchange's own routing key reaches its queue; any other pair reaches none |
| MessageProducer.SendTaskMessage | src/main/java/com/example/wsTextEditor/service/MessageProducerService.java:18-24 | one publish of the unchanged message to the task exchange; a down broker throws and publishes nothing |
| MessageProducer.SendCommentMessage | src/main/java/com/example/wsTextEditor/service/MessageProducerService.java:29-35 | the same for the comment exchange |
| MessageProducer.BroadcastMessage | src/main/java/com/example/wsTextEditor/service/MessageProducerService.java:40-44 | succeeds exactly when both brokers are up; a down task broker publishes nothing; a down comment broker leaves the task publish in place and throws; otherwise the task publish, then the comment publish |
| MessageConsumer.ProcessMessage | src/main/java/com/example/wsTextEditor/service/MessageConsumerService.java:45-107 | a null type, or a null action on a task or comment, throws NullPointerException; a message is broadcast exactly when its (type, action) pair is announced; anything else is dropped |
| MessageConsumer.ProcessAndBroadcast | src/main/java/com/example/wsTextEditor/service/MessageConsumerService.java:23-40 | the sends are the broadcast of the processed message; the outcome is the processing error, else the send error |
| MessageConsumer.HandleTaskMessage | src/main/java/com/example/wsTextEditor/service/MessageConsumerService.java:23-30 | ProcessAndBroadcast for the task queue |
| MessageConsumer.HandleCommentMessage | src/main/java/com/example/wsTextEditor/service/MessageConsumerService.java:36-40 | ProcessAndBroadcast for the comment queue |
| MessageConsumer.Consume | src/main/java/com/example/wsTextEditor/service/MessageConsumerService.java:23-40 | a publish routed to no queue is dropped, one routed to a queue is processed |
| MessageConsumer.CommentDeletionIsDropped | src/main/java/com/example/wsTextEditor/service/MessageConsumerService.java:87-107 | a comment deletion is never announced |
| MessageConsumer.TaskLikeIsDropped | src/main/java/com/example/wsTextEditor/service/MessageConsumerService.java:62-82 | a task like is never announced |
| MessageConsumer.BroadcastReachesTopicTwice | src/main/java/com/example/wsTextEditor/service/MessageProducerService.java:40-44 | a broadcast of an announced message is consumed from both queues |
| WebSocketNotification.OnlineUpdate | src/main/java/com/example/wsTextEditor/service/WebSocketNotificationService.java:83-95 | one marker send to the online topic when STOMP is up, none otherwise |
| WebSocketNotification.BroadcastOnlineUsersUpdate | src/main/java/com/example/wsTextEditor/service/WebSocketNotificationService.java:83-95 | the sends grow by OnlineUpdate; a refusal is swallowed |
| WebSocketNotification.AddUser | src/main/java/com/example/wsTextEditor/service/WebSocketNotificationService.java:40-45 | the user is online and the change announced, even when already online |
| WebSocketNotification.RemoveUser | src/main/java/com/example/wsTextEditor/service/WebSocketNotificationService.java:51-56 | the user is offline and the change announced, even when absent |
| WebSocketNotification.SendToUser | src/main/java/com/example/wsTextEditor/service/WebSocketNotificationService.java:64-68 | one send to the user's queue, online or not; a down broker throws |
| WebSocketNotification.BroadcastToAllUsers | src/main/java/com/example/wsTextEditor/service/WebSocketNotificationService.java:74-78 | one send of the unchanged message to the public topic |
| WebSocketNotification.GetOnlineUserCount | src/main/java/com/example/wsTextEditor/service/WebSocketNotificationService.java:100-102 | zero exactly when no user is online; each online user counts once, so removing one leaves one less |
| WebSocketNotification.GetOnlineUsers | src/main/java/com/example/wsTextEditor/service/WebSocketNotificationService.java:107-109 | exactly the set of online users |
| WebSocketNotification.AddIdempotent | src/main/java/com/example/wsTextEditor/service/WebSocketNotificationService.java:40-45 | adding twice is adding once |
| WebSocketNotification.RemoveAbsent | src/main/java/com/example/wsTextEditor/service/WebSocketNotificationService.java:51-56 | removing an absent user changes nothing |
| EventListener.Apply | src/main/java/com/example/wsTextEditor/config/WebSocketEventListener.java:24-47 | a connection adds its principal, a disconnection removes it, an event without principal changes nothing |
| EventListener.ReplaySnoc | src/main/java/com/example/wsTextEditor/config/WebSocketEventListener.java:24-47 | replaying one more event applies it to the replayed state |
| EventListener.OnlineIffLastConnected | src/main/java/com/example/wsTextEditor/config/WebSocketEventListener.java:24-47 | a user is online exactly when the last event naming them was a connection (or none names them and they were online): one disconnect ends all sessions |
| EventListener.HandleConnect | src/main/java/com/example/wsTextEditor/config/WebSocketEventListener.java:24-34 | a principal is added and announced; no principal changes nothing |
| EventListener.HandleDisconnect | src/main/java/com/example/wsTextEditor/config/WebSocketEventListener.java:37-47 | a principal is removed and announced; no principal changes nothing |
| DocumentSyncService.Convert | src/main/java/com/example/wsTextEditor/service/DocumentSyncService.java:52-61 | id, title, content, language and both timestamps copied; uniqueId left unset |
| DocumentSyncService.IdKeys | src/main/java/com/example/wsTextEditor/service/DocumentSyncService.java:25-32 | the numeric keys of the documents |
| DocumentSyncService.Synced | src/main/java/com/example/wsTextEditor/service/DocumentSyncService.java:25-32 | the keys are the old keys plus the documents' ids; an entry no document touches is kept |
| DocumentSyncService.SyncDocument | src/main/java/com/example/wsTextEditor/service/DocumentSyncService.java:37-40 | the projection stored under the document's id; every other entry unchanged |
| DocumentSyncService.DeleteDocumentFromIndex | src/main/java/com/example/wsTextEditor/service/DocumentSyncService.java:45-47 | removes the entry under the key, if any, and nothing else |
| DocumentSyncService.SyncAllDocuments | src/main/java/com/example/wsTextEditor/service/DocumentSyncService.java:25-32 | the index becomes Synced of the old index and all documents |
| DocumentSyncService.SyncedHoldsEachDocument | src/main/java/com/example/wsTextEditor/service/DocumentSyncService.java:25-32 | with distinct ids, every document's own projection is under its id after a full sync |
| DocumentSynAspect.Followed | src/main/java/com/example/wsTextEditor/aop/DocumentSynAspect.java:40-48 | the advice's exception, if any, replaces the target's result |
| DocumentSynAspect.DeleteSyncDocument | src/main/java/com/example/wsTextEditor/aop/DocumentSynAspect.java:29-35 | the text key is removed before the delete runs, whatever the delete does |
| DocumentSynAspect.TextKeyDeleteIsNoOp | src/main/java/com/example/wsTextEditor/aop/DocumentSynAspect.java:29-35 | in an index holding only numeric keys, removing a text key changes nothing |
| DocumentSynAspect.SyncKeepsKeysNumeric | src/main/java/com/example/wsTextEditor/service/DocumentSyncService.java:37-40 | syncing keeps every key numeric |
| DocumentSynAspect.DeleteSyncDocumentByKey | src/main/java/com/example/wsTextEditor/aop/DocumentSynAspect.java:29-35 | a refused delete leaves index and tables alone; a successful one removes the document's numeric entry |
| DocumentSynAspect.SyncAfter | src/main/java/com/example/wsTextEditor/aop/DocumentSynAspect.java:43-46 | a document that no longer exists throws NullPointerException; otherwise its projection is synced |
| DocumentSynAspect.SaveSyncDocument | src/main/java/com/example/wsTextEditor/aop/DocumentSynAspect.java:40-48 | a refused save leaves the index alone; a saved document is re-indexed with its new row |
| DocumentSynAspect.UpdateTitleSyncDocument | src/main/java/com/example/wsTextEditor/aop/DocumentSynAspect.java:40-48 | a refusal leaves rows and index alone; a retitled document is re-indexed with its new title, and its modification time moves only when the title differs |
| AuthController.RegistrationCheck | src/main/java/com/example/wsTextEditor/controller/AuthController.java:78-92 | a taken username, then a taken non-empty email, then a taken non-empty phone are refused with their own IllegalArgumentException messages, in that order; an ambiguous lookup at any step throws the non-unique-result exception; it succeeds exactly when all three are free |
| AuthController.Register | src/main/java/com/example/wsTextEditor/controller/AuthController.java:71-106 | a refused registration changes nothing; otherwise one user with the given fields is appended |
| AuthController.FindAppended | src/main/java/com/example/wsTextEditor/controller/AuthController.java:94-99 | a key no old user matches is matched by exactly the appended user that does |
| AuthController.RegisteredUserIsUnique | src/main/java/com/example/wsTextEditor/controller/AuthController.java:71-106 | after a registration the new user is the only one with its name, and with its non-empty email and phone |
| AuthController.ResetPassword | src/main/java/com/example/wsTextEditor/controller/AuthController.java:110-154 | the one user matching the key gets the new encoded password; nothing else changes; none matching gives the not-found response |
| AuthController.ResetPasswordByEmail | src/main/java/com/example/wsTextEditor/controller/AuthController.java:110-130 | ResetPassword by email with the email messages |
| AuthController.ResetPasswordByPhone | src/main/java/com/example/wsTextEditor/controller/AuthController.java:134-154 | ResetPassword by phone with the phone messages |
| AuthController.ResetKeepsLookups | src/main/java/com/example/wsTextEditor/controller/AuthController.java:110-154 | a reset keeps every lookup key, so the user it found is found again |
| AuthController.FindUserSameMatches | src/main/java/com/example/wsTextEditor/repository/UserRepository.java:9-15 | two tables whose rows match a key alike answer the lookup alike |
| UserProfileController.ProfileChange | src/main/java/com/example/wsTextEditor/controller/UserProfileController.java:79-99 | email first, then phone, each taken only when non-empty and different; a value another user holds is refused with 400 "Email already exists" or "Phone number already exists"; an ambiguous lookup throws; with both free the result is the updated user with exactly the replaced fields; a taken value is held by no other user |
| UserProfileController.UpdateProfile | src/main/java/com/example/wsTextEditor/controller/UserProfileController.java:67-108 | 404 for an unknown user; a refusal saves nothing, not even the email of a refused phone change; otherwise the checked row is saved |
| UserProfileController.ProfileChangeKeepsIdentity | src/main/java/com/example/wsTextEditor/controller/UserProfileController.java:79-99 | an update never touches id, name, password, avatar or invitation id |
| UserProfileController.ChangePassword | src/main/java/com/example/wsTextEditor/controller/UserProfileController.java:112-140 | 404 for an unknown user, 400 for a wrong current password with nothing changed; otherwise only the password changes |
| UserProfileController.Extension | src/main/java/com/example/wsTextEditor/controller/UserProfileController.java:164-167 | empty without a '.'; else a suffix of the name that starts with '.' and has no further '.' |
| UserProfileController.AvatarUrl | src/main/java/com/example/wsTextEditor/controller/UserProfileController.java:183 | '/' then the upload directory, then exactly the generated file name, ending in the extension |
| UserProfileController.UploadAvatar | src/main/java/com/example/wsTextEditor/controller/UserProfileController.java:144-189 | 404 for an unknown user, 400 for an empty file; otherwise only the avatar url changes, to a fresh name with the original extension |
| GlobalExceptionHandler.Handle | src/main/java/com/example/wsTextEditor/Excption/GlobalExceptionHandler.java:17-52 | 404 exactly for IllegalArgument and its NumberFormat subclass, 401 for IllegalState, 403 for the two access exceptions, each with its message; 500 with the prefixed message for everything else |
| GlobalExceptionHandler.UnparsableIdIsNotFound | src/main/java/com/example/wsTextEditor/Excption/GlobalExceptionHandler.java:17-23 | an id that does not parse is answered 404 |
| GlobalExceptionHandler.PermissionRefusalsDiffer | src/main/java/com/example/wsTextEditor/Excption/GlobalExceptionHandler.java:26-44 | a document save refusal is 403, a task refusal 401 |
| GlobalExceptionAspect.ClientIp | src/main/java/com/example/wsTextEditor/aop/GlobalExceptionAspect.java:128-136 | the X-Forwarded-For value when non-null, non-empty and not 'unknown' in any case; else the remote address |
| GlobalExceptionAspect.UnknownHeaderIsIgnored | src/main/java/com/example/wsTextEditor/aop/GlobalExceptionAspect.java:131 | 'unknown' in any letter case falls back to the remote address |
| GlobalExceptionAspect.KeptArgs | src/main/java/com/example/wsTextEditor/aop/GlobalExceptionAspect.java:84-95 | an argument is kept exactly when it is not a request, response, upload or binding result |
| GlobalExceptionAspect.KeptArgsAppend | src/main/java/com/example/wsTextEditor/aop/GlobalExceptionAspect.java:84-95 | the filter keeps call order across a split |
| GlobalExceptionAspect.KeptArgsOfSerializable | src/main/java/com/example/wsTextEditor/aop/GlobalExceptionAspect.java:84-95 | serializable arguments are kept whole and in order |
| GlobalExceptionAspect.SerializableArgs | src/main/java/com/example/wsTextEditor/aop/GlobalExceptionAspect.java:84-95 | the loop computes KeptArgs |
| GlobalExceptionAspect.ArgsJson | src/main/java/com/example/wsTextEditor/aop/GlobalExceptionAspect.java:96-102 | the serializer's output, or the placeholder when it failed, without rethrowing |
| GlobalExceptionAspect.CurrentTraceId | src/main/java/com/example/wsTextEditor/aop/GlobalExceptionAspect.java:70-74 | an existing non-empty trace id is kept, otherwise the fresh one |
| GlobalExceptionAspect.LogAfterThrowing | src/main/java/com/example/wsTextEditor/aop/GlobalExceptionAspect.java:54-120 | the record carries trace id, call site, filtered arguments, exception class, and the request fields when there is a request; the context ends empty |
| WebSocketManager.Sends | src/main/resources/static/js/websocket-manager.js:168-177 | draining a queue yields only send frames of queued messages, at most one per message, and every accepted message is sent |
| WebSocketManager.SendsAllAccepted | src/main/resources/static/js/websocket-manager.js:168-177 | a queue whose sends all succeed is sent whole and in FIFO order |
| WebSocketManager.Resubscribes | src/main/resources/static/js/websocket-manager.js:126-139 | one subscribe frame per stored id, in insertion order |
| WebSocketManager.Without | src/main/resources/static/js/websocket-manager.js:119 | the ids without the removed one |
| WebSocketManager.WithoutNoDuplicates | src/main/resources/static/js/websocket-manager.js:119 | removal keeps ids distinct |
| WebSocketManager.Manager.constructor | src/main/resources/static/js/websocket-manager.js:6-12 | disconnected, no client, no promise, no subscriptions, empty queue |
| WebSocketManager.Manager.IsConnected | src/main/resources/static/js/websocket-manager.js:189-191 | the connected flag |
| WebSocketManager.Manager.ConnectAsWritten | src/main/resources/static/js/websocket-manager.js:17-60 | connected resolves with no change; a stored promise is returned with no change; otherwise a new attempt, or on a socket creation failure a stored rejected promise that later calls keep returning |
| WebSocketManager.Manager.Connect | src/main/resources/static/js/websocket-manager.js:17-60 | the same, except that a creation failure leaves no promise |
| WebSocketManager.Manager.SendMessage | src/main/resources/static/js/websocket-manager.js:146-163 | connected: sent at once, a refused send dropped; otherwise appended to the queue and connect() asked for, so after a socket creation failure the promise stays rejected and later messages stay queued |
| WebSocketManager.Manager.SendMessageRetrying | src/main/resources/static/js/websocket-manager.js:146-163 | the same over the connect() that clears a failed attempt: a send never leaves a rejected promise behind that was not there |
| WebSocketManager.Manager.ProcessMessageQueue | src/main/resources/static/js/websocket-manager.js:168-177 | while connected the queue drains front first into Sends, refused sends included; otherwise no change |
| WebSocketManager.Manager.ResubscribeAll | src/main/resources/static/js/websocket-manager.js:126-139 | every stored subscription is live and subscribed again, in insertion order |
| WebSocketManager.Manager.OnConnected | src/main/resources/static/js/websocket-manager.js:34-45 | connected, no promise, the queue drained, then every subscription renewed |
| WebSocketManager.Manager.OnConnectError | src/main/resources/static/js/websocket-manager.js:46-51 | not connected, no promise; queue and subscriptions kept |
| WebSocketManager.Manager.Disconnect | src/main/resources/static/js/websocket-manager.js:65-73 | a disconnect is asked for exactly when there is a client and it is connected |
| WebSocketManager.Manager.OnDisconnected | src/main/resources/static/js/websocket-manager.js:67-71 | not connected and no client |
| WebSocketManager.Manager.Subscribe | src/main/resources/static/js/websocket-manager.js:81-105 | the entry is stored, live at once only while connected; a new id goes last |
| WebSocketManager.Manager.Unsubscribe | src/main/resources/static/js/websocket-manager.js:111-121 | a live subscription is ended, then the entry removed; an unknown id changes nothing |
| WebSocketManager.CreationFailureBlocksRetry | src/main/resources/static/js/websocket-manager.js:29-59 | as written, after a creation failure a later connect returns the rejected promise |
| WebSocketManager.CreationFailureAllowsRetry | src/main/resources/static/js/websocket-manager.js:29-59 | with the promise cleared, the next connect starts a new client |
| WebSocketManager.QueuedMessagesKeepOrder | src/main/resources/static/js/websocket-manager.js:146-177 | two messages sent while disconnected reach the client in order once it connects |
| WebSocketManager.SendAfterCreationFailureStaysQueued | src/main/resources/static/js/websocket-manager.js:29-59 | as written, two sends after a failed socket creation leave both messages queued and no client |
| WebSocketManager.SendAfterCreationFailureRetries | src/main/resources/static/js/websocket-manager.js:29-59 | with the promise cleared, the second send starts a client with both messages queued in order |

## Left out

- HTTP routing, request binding, view models beyond the decisions modelled, Spring Security and session mechanics (login, logout): framework plumbing.
- Password hashing: `PasswordEncoder.matches` is a boolean parameter and `encode` an opaque string parameter, since bcrypt is salted.
- RabbitMQ and STOMP delivery: publishes and sends are appended to logs; redelivery, acknowledgement and asynchronous consumption are not modelled, and a consumer is applied to a publish explicitly (`MessageConsumer.Consume`).
- Broker, STOMP and search-index availability are booleans; an unavailable search index is not modelled (index writes always succeed).
- Clocks, `UUID.randomUUID`, `Date.now` and `Math.random`: times, fresh ids and UUIDs are parameters; timestamp fields on tasks, comments, log entries and messages are not kept.
- Repository ordering by creation time ("OrderByCreatedAtDesc") is modelled as reverse insertion order, which agrees only when timestamps grow with insertion.
- `@Transactional` rollback is modelled only where it is visible: the audit entry written before a failed comment deletion is rolled back; elsewhere the guarded operations throw before they write.
- Concurrency: the `ConcurrentHashMap`-backed presence set, the listener threads and JavaScript promises and callbacks are modelled as sequential calls; a pending promise is a state, and its resolution is the `OnConnected` / `OnConnectError` callback.
- WebSocketManager.Manager.Disconnect: the client's `disconnect(callback)` is split into the request (`Disconnect`) and its callback (`OnDisconnected`).
- WebSocketManager.Manager.Subscribe: the message callback and its JSON parsing are not modelled; only the stored entry and the subscribe frame are.
- User.java is not part of this model: the user is a record with id, username, email, phone number, password hash, invitation UUID and avatar URL; where the invitation UUID comes from is a parameter of registration.
- User names are non-null strings: a null principal is modelled only where the code checks for one (the dashboard, the editor and the session listener).
- String case folding (`toLowerCase`, `equalsIgnoreCase`) is ASCII-only; SQL `LIKE` wildcards inside a tag filter are treated as literal characters.
- JavaLang.ParseLong: only the ASCII digits '0'-'9' count as digits; Java's `Long.parseLong` also accepts other Unicode decimal digits (fullwidth digits, say), which the model rejects with NumberFormatException, so permission updates and removals refuse such ids.
- DocumentSynAspect.DeleteSyncDocument: `DocumentSynAspect.java:31` passes a String where `deleteDocumentFromIndex` takes a `Long`, which does not compile; the model reads the call as a delete under a text key (`TextKey`, beside the `NumericKey` the index really uses), one reading among several of code that cannot run as written.
- `EditorController.createDocument` and `DocumentsController.addTagsToDocument` are not matched by the sync aspect's pointcuts, so they do not touch the index; nothing in the model adds such a sync.
- Avatar upload file I/O (directory creation, copying the file): only the user-table change and the URL are modelled; the 200 answer's response map with its "avatarUrl" entry is not modelled, only the status and message.
- GlobalExceptionAspect.LogAfterThrowing: the JSON serializer is a function parameter that reports failure as `None`; logger output is the returned record; the `catch` around the advice body is not modelled because nothing modelled in it throws.
- Search querying (`DocumentSearchService`, `DocumentSearchController`, `DocumentSearchRepository`): pass-through queries to Elasticsearch.
- Thin delegating controllers and configuration: `TaskController` (its audited endpoints are in `AuditedEndpoints`), `UserController`, `MessageController`, `WebSocketConfig`, `SecurityConfig`, `WsTextEditorApplication`.
- `MessageDTO`, `CollaboratorInfo`, `Task`, `ActionLog` and `DocumentCollaborator` are datatypes only; their getters and setters are field accesses.
- User.toString is not modelled: the rendering of the inviter in the invitation entry is the `render` parameter of `CollaboratorController.InviteUserByUuid`. Logger output is not modelled.
- The order of the audit advice, the sync advice and the transaction proxy around one endpoint is not fixed by the source; `AuditedEndpoints` takes the audit advice as the outermost, so it sees the sync advice's exception. `deleteTask`, `removeCollaborator` and `deleteComment` are intercepted but the advice writes no entry for them.
- Store.SaveKey: a supplied id that names no stored row is inserted under a fresh generated id, as Hibernate's merge does; persistence providers that reject such an id are not modelled.
- Store.FindRecord: returns the first record of a pair, where the single-result query would throw on two; the two agree because the collaborator table is assumed to start with at most one record per (document, user) pair, and every operation that writes it keeps that (`UniqueRecords`). Nothing in the source enforces it in the schema.

## Findings

| source | as written | input that shows it | evidently intended | confidence | as-written member | corrected member |
|---|---|---|---|---|---|---|
| src/main/java/com/example/wsTextEditor/aop/DocumentSynAspect.java:29-35 | `deleteDocumentFromIndex(Long)` is passed `args[0].toString()`, the document's uniqueId as a String: a type error, so the class does not compile as written; read as a delete under that text, it names no entry, since `DocumentSyncService.java:37-40` stores projections under the numeric id | delete a document that is in the index: under the text-key reading its projection stays searchable | delete the entry under the document's numeric id, and only when the delete succeeds | not executed | DocumentSynAspect.DeleteSyncDocument | DocumentSynAspect.DeleteSyncDocumentByKey |
| src/main/java/com/example/wsTextEditor/aop/ActionLogAspect.java:80-87 | every intercepted `update*` method outside the document controllers reads `args[1]` | `UserProfileController.updateProfile` with its single map argument: index 1 is out of bounds for length 1 after the profile has been saved, so the call is answered 500 | read the second argument only when it exists | not executed | ActionLogAspect.UpdateProfileThrows | ActionLogAspect.CheckedUpdateNeedsNoSecondArgument |
| src/main/java/com/example/wsTextEditor/controller/DocumentCollaboratorController.java:100-121 | the permission update checks neither the caller nor the caller's level | a VIEWER on document "d" with id 2 updates user 2 to OWNER, and may then invite others | only an OWNER may change permission levels | not executed | CollaboratorController.ViewerCanPromoteSelf | CollaboratorController.CheckedUpdateKeepsNonOwnersOut |
| src/main/resources/static/js/websocket-manager.js:29-59 | when the SockJS constructor throws, the executor clears `connectionPromise` before the outer assignment stores the rejected promise | a first `connect()` whose socket creation fails; every later `connect()` returns the same rejected promise and no new connection is tried, so messages sent afterwards stay queued for good (`WebSocketManager.SendAfterCreationFailureStaysQueued`, against `WebSocketManager.SendAfterCreationFailureRetries`) | a failed attempt leaves no stored promise, so the next `connect()` tries again | not executed | WebSocketManager.CreationFailureBlocksRetry | WebSocketManager.CreationFailureAllowsRetry |
