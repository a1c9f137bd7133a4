/**
 * The maintenance gate of the dashboard app: while the current global setting
 * is in maintenance mode, every request under `/api/v1` is answered with a 503
 * error response instead of reaching its view.  The current setting is passed
 * in (it is the value `get_current_global_settings` returns).
 */
module Maintenance {
  import opened Wrappers
  import opened Text
  import GlobalSettings

  const ApiPrefix := "/api/v1"
  const DefaultMessage := "Service temporarily unavailable, try again later"

  /** The JSON error body and its status. */
  datatype ErrorResponse = ErrorResponse(status: nat, errorType: string, code: string, detail: string)

  /** `MaintenanceModeMiddleware.process_request`: `None` lets the request through. */
  function ProcessRequest(path: string, s: GlobalSettings.GlobalSetting): (r: Option<ErrorResponse>)
    ensures r.Some? <==> StartsWith(path, ApiPrefix) && s.isMaintenanceMode
    ensures r.Some? ==>
              && r.value.status == 503
              && r.value.errorType == "service_unavailable"
              && r.value.code == "maintenance"
              && (s.maintenanceModeMessage != "" ==> r.value.detail == s.maintenanceModeMessage)
              && (s.maintenanceModeMessage == "" ==> r.value.detail == DefaultMessage)
  {
    if StartsWith(path, ApiPrefix) && s.isMaintenanceMode then
      var detail := if s.maintenanceModeMessage != "" then s.maintenanceModeMessage else DefaultMessage;
      Some(ErrorResponse(503, "service_unavailable", "maintenance", detail))
    else None
  }

  /** The detail shown is never empty. */
  lemma DetailNeverEmpty(path: string, s: GlobalSettings.GlobalSetting)
    requires ProcessRequest(path, s).Some?
    ensures ProcessRequest(path, s).value.detail != ""
  {
  }

  /** Paths outside the API, such as the admin site, are never blocked, whatever
      the setting; and the answer for an API path depends on the setting only
      through its maintenance flag and message. */
  lemma OnlyApiPathsGated(path: string, s: GlobalSettings.GlobalSetting, t: GlobalSettings.GlobalSetting)
    ensures !StartsWith(path, ApiPrefix) ==> ProcessRequest(path, s).None?
    ensures s.isMaintenanceMode == t.isMaintenanceMode && s.maintenanceModeMessage == t.maintenanceModeMessage ==>
              ProcessRequest(path, s) == ProcessRequest(path, t)
  {
  }
}
