/** The status classifier: CloudFormation stack status codes and the attachment colour each one gets. */
module StackStatus {

  /** STATUS_COLORS: every documented stack status and its Slack attachment colour. */
  const StatusColors: map<string, string> := map[
    "CREATE_COMPLETE" := "good",
    "CREATE_IN_PROGRESS" := "good",
    "CREATE_FAILED" := "danger",
    "DELETE_COMPLETE" := "good",
    "DELETE_FAILED" := "danger",
    "DELETE_IN_PROGRESS" := "good",
    "ROLLBACK_COMPLETE" := "warning",
    "ROLLBACK_FAILED" := "danger",
    "ROLLBACK_IN_PROGRESS" := "warning",
    "UPDATE_COMPLETE" := "good",
    "UPDATE_COMPLETE_CLEANUP_IN_PROGRESS" := "good",
    "UPDATE_IN_PROGRESS" := "good",
    "UPDATE_ROLLBACK_COMPLETE" := "warning",
    "UPDATE_ROLLBACK_COMPLETE_CLEANUP_IN_PROGRESS" := "warning",
    "UPDATE_ROLLBACK_FAILED" := "danger",
    "UPDATE_ROLLBACK_IN_PROGRESS" := "warning"
  ]

  /** The colour used for a status missing from the table. */
  const UnknownColor: string := "#000000"

  /** DESCRIBE_STACK_STATUS: statuses whose message also carries a resource breakdown. */
  const DescribeStackStatus: seq<string> := ["CREATE_COMPLETE", "DELETE_IN_PROGRESS"]

  /** `STATUS_COLORS.get(status, '#000000')`: never fails, and falls back exactly on unknown codes. */
  function ColorFor(status: string): (color: string)
    ensures color in {"good", "warning", "danger", UnknownColor}
    ensures color == UnknownColor <==> status !in StatusColors
    ensures status in StatusColors ==> color == StatusColors[status]
  {
    if status in StatusColors then StatusColors[status] else UnknownColor
  }
}
