/**
 * The `DialogBoxShowing` handler: a fixed table from the dialog's id to the
 * result it forces, and whether it then cancels the dialog.
 */
module DialogPolicy {
  import opened Wrappers

  const MissingUpdater := "TaskDialog_Missing_Third_Party_Updater"
  const MissingUpdaters := "TaskDialog_Missing_Third_Party_Updaters"
  const SchemaConflict := "TaskDialog_Schema_Conflict"

  /** What the handler does to the event: the `OverrideResult` code it sets, and whether it calls `Cancel`. */
  datatype DialogResponse = DialogResponse(overrideResult: Option<int>, cancel: bool)

  const NoAction := DialogResponse(None, false)

  /** The ids the handler recognises. */
  predicate IsSuppressed(dialogId: string) {
    dialogId == MissingUpdater || dialogId == MissingUpdaters || dialogId == SchemaConflict
  }

  /** `ApplicationOnDialogBoxShowing`. */
  function OnDialogBoxShowing(dialogId: string, cancellable: bool): (r: DialogResponse)
    ensures r.overrideResult == Some(2) <==> dialogId == MissingUpdater || dialogId == MissingUpdaters
    ensures r.overrideResult == Some(1) <==> dialogId == SchemaConflict
    ensures r.overrideResult.None? <==> !IsSuppressed(dialogId)
    ensures r.cancel <==> IsSuppressed(dialogId) && cancellable
    ensures !IsSuppressed(dialogId) ==> r == NoAction
  {
    if dialogId == MissingUpdater || dialogId == MissingUpdaters then
      DialogResponse(Some(2), cancellable)
    else if dialogId == SchemaConflict then
      DialogResponse(Some(1), cancellable)
    else
      NoAction
  }
}
