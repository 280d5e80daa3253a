/** The Recall records: cases, logs and photos as the tables hold them.
    Timestamps are integers (milliseconds); where the application only prints
    a timestamp, the printed text comes from a formatter passed in by the
    caller. */
module RecallTypes {
  import opened Wrappers

  type Timestamp = int

  /** The closed set of log kinds. */
  datatype LogType = Before | During | After | Issue | Resolution | Call | Visit | Invoice {
    /** The label stored in `log_type` and printed in reports. */
    function Name(): string {
      match this
      case Before => "Before"
      case During => "During"
      case After => "After"
      case Issue => "Issue"
      case Resolution => "Resolution"
      case Call => "Call"
      case Visit => "Visit"
      case Invoice => "Invoice"
    }
  }

  /** A row of `recall_cases`; `deleted_at` is the soft-delete marker. */
  datatype RecallCase = RecallCase(
    id: string,
    owner_id: string,
    title: string,
    client_name: Option<string>,
    location_text: Option<string>,
    created_at: Timestamp,
    updated_at: Timestamp,
    deleted_at: Option<Timestamp>)

  /** A row of `recall_logs`. */
  datatype RecallLog = RecallLog(
    id: string,
    case_id: string,
    owner_id: string,
    log_type: LogType,
    note: string,
    created_at: Timestamp,
    updated_at: Timestamp)

  /** A row of `recall_photos`. */
  datatype RecallPhoto = RecallPhoto(
    id: string,
    log_id: string,
    owner_id: string,
    storage_path: string,
    original_filename: Option<string>,
    created_at: Timestamp)

  /** A log together with its photos, as the export functions receive it;
      an absent `photos` list behaves exactly like an empty one there. */
  datatype LogWithPhotos = LogWithPhotos(log: RecallLog, photos: seq<RecallPhoto>)

  /** The form payload of `createCase`. */
  datatype CreateCaseData = CreateCaseData(
    title: string,
    client_name: Option<string>,
    location_text: Option<string>)
}
