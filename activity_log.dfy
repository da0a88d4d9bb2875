/**
 * Activity-log entries written by the services. `activity_log_entry` itself is not part of this
 * model: an entry is reduced to its type and the id of the record it is about (the store, user
 * and time it also records are left out).
 */
module ActivityLog {
  import opened Wrappers

  datatype ActivityLogType = VaccineCourseCreated | InventoryAdjustment

  datatype ActivityLogEntry = ActivityLogEntry(logType: ActivityLogType, recordId: Option<string>)
}
