// The states a crawl task can be in.
module TaskStatuses {
  datatype TaskStatus = InProgress | Fetched | Parsed | Completed | Failed | Skipped
}
