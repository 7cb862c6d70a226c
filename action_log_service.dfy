/**
 * ActionLogService: appends an audit entry for the authenticated user, with
 * or without the uniqueId of the document it concerns.
 */
module ActionLogService {
  import opened JavaLang
  import opened Entities
  import opened Store

  /** logAction(action, description); `principal` is the authenticated user's name. */
  method LogAction(w: World, principal: string, action: string, description: Option<string>)
    modifies w`logs
    ensures w.logs == old(w.logs) + [ActionLog(principal, action, description, None)]
  {
    w.logs := w.logs + [ActionLog(principal, action, description, None)];
  }

  /** logAction(action, description, documentId) */
  method LogActionOnDocument(w: World, principal: string, action: string, description: Option<string>,
                             documentId: Option<string>)
    modifies w`logs
    ensures w.logs == old(w.logs) + [ActionLog(principal, action, description, documentId)]
  {
    w.logs := w.logs + [ActionLog(principal, action, description, documentId)];
  }
}
