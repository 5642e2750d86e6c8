/** The Slack payload: a message is a dictionary whose values are strings, null or attachment lists. */
module Slack {

  /**
   * One labelled field of an attachment. `short` is true where the source sets `'short': True`
   * and false where it leaves the key out (it never writes `'short': False`).
   */
  datatype Field = Field(title: string, value: string, short: bool)

  datatype Attachment =
    /** The primary attachment: coloured by status, with the ARN, user and timestamp fields. */
    | StackUpdate(color: string, fields: seq<Field>)
    /**
     * The resource breakdown: one field per resource type. Its fields come from iterating a
     * dictionary, whose order is not specified, so they are a set.
     */
    | Breakdown(fallback: string, title: string, typeFields: set<Field>)

  datatype Value =
    | Null                                 // Python None, e.g. an unset default channel
    | Str(s: string)
    | Attachments(items: seq<Attachment>)

  /** A message or partial message: the dictionary posted to the webhook. */
  type Message = map<string, Value>
}
