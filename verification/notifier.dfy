/**
 * The event router and message composer of the CloudFormation-to-Slack notifier: a stack
 * notification becomes a status message, a scheduled event becomes an audit report, and either
 * is laid over the default channel, icon and user name.
 */
module Notifier {
  import opened Results
  import opened Text
  import opened Slack
  import opened StackStatus
  import opened Notification
  import opened ConsoleLink
  import opened ResourceTally
  import opened Audit
  import opened Principals

  /** The process configuration: the CHANNEL and DEBUG settings and the optional channel overrides. */
  datatype Config = Config(
    channel: Option<string>,                              // CHANNEL, when set
    customChannels: Option<map<Option<string>, string>>,  // slack.CUSTOM_CHANNELS, when that module defines it
    debug: Option<string>)                                // DEBUG, when set

  /**
   * An inbound event: its `source` field, when present, and the bodies of its notification
   * records, each already split into tokens.
   */
  datatype Event = Event(source: Option<string>, records: seq<seq<string>>)

  /** The answers of the cloud API: all stacks, each stack's resources by stack name, all users. */
  datatype Cloud = Cloud(stacks: seq<Stack>, stackResources: map<string, seq<Resource>>, users: seq<User>)

  const ScheduledSource: string := "aws.events"
  const StackResourceType: string := "AWS::CloudFormation::Stack"
  /** The keys the primary attachment reads. */
  const AttachmentKeys: set<string> := {"StackId", "PrincipalId", "Timestamp", "ResourceStatus"}
  /** The keys a stack message reads. */
  const RequiredKeys: set<string> := AttachmentKeys + {"StackName"}

  /** `is_debugging`: DEBUG is set to a non-empty value. */
  predicate IsDebugging(config: Config)
  {
    config.debug.Some? && config.debug.value != ""
  }

  /**
   * `get_channel`: the override for the stack when the override table has one, otherwise the
   * default channel, which may be unset.
   */
  function GetChannel(config: Config, stackName: Option<string>): Option<string>
  {
    match config.customChannels
    case None => config.channel
    case Some(custom) => if stackName in custom then Some(custom[stackName]) else config.channel
  }

  /** Python truthiness of a channel: set and non-empty. */
  predicate IsTruthy(c: Option<string>)
  {
    c.Some? && c.value != ""
  }

  /** `cf_message[key]`, which raises KeyError for a missing key. */
  function Get(cf: map<string, string>, key: string): Result<string, Error>
  {
    if key in cf then Success(cf[key]) else Failure(MissingKey(key))
  }

  function UpdateFields(stackId: string, user: string, timestamp: string): seq<Field>
  {
    [Field("ARN", stackId, false), Field("User", user, true), Field("Timestamp", timestamp, true)]
  }

  /** Markdown bold. */
  function Bold(s: string): string
  {
    "*" + s + "*"
  }

  /** The Slack link markup that ends the main line. */
  function WebConsoleLink(link: string): string
  {
    " <" + link + "|(view in web console)>"
  }

  /** The main line of a status message. */
  function StatusText(stackName: string, status: string, link: string): string
  {
    "Stack: " + Bold(stackName) + " has entered status: " + Bold(status) + WebConsoleLink(link)
  }

  /** The main line names the stack and the status, each in bold. */
  lemma StatusTextNames(stackName: string, status: string, link: string)
    ensures Contains(StatusText(stackName, status, link), Bold(stackName))
    ensures Contains(StatusText(stackName, status, link), Bold(status))
  {
    ContainsSecondAndFourth(
      "Stack: ", Bold(stackName), " has entered status: ", Bold(status), WebConsoleLink(link));
  }

  lemma ContainsSecondAndFourth(a: string, b: string, c: string, d: string, e: string)
    ensures Contains(a + b + c + d + e, b)
    ensures Contains(a + b + c + d + e, d)
  {
    assert a + b + c + d + e == a + b + (c + d + e);
    ContainsMiddle(a, b, c + d + e);
    ContainsMiddle(a + b + c, d, e);
  }

  /** `get_stack_update_attachment`: status colour plus the ARN, resolved user and timestamp fields. */
  method GetStackUpdateAttachment(cf: map<string, string>, users: seq<User>) returns (r: Result<Attachment, Error>)
    ensures r.Success? <==> AttachmentKeys <= cf.Keys
    ensures r.Success? ==> r.value == StackUpdate(
      ColorFor(cf["ResourceStatus"]),
      UpdateFields(cf["StackId"], UserName(users, cf["PrincipalId"]), cf["Timestamp"]))
    ensures r.Failure? ==> r.error.MissingKey?
  {
    var stackId :- Get(cf, "StackId");
    var principal :- Get(cf, "PrincipalId");
    var user := ResolveUserIdToName(users, principal);
    var timestamp :- Get(cf, "Timestamp");
    var status :- Get(cf, "ResourceStatus");
    return Success(StackUpdate(ColorFor(status), UpdateFields(stackId, user, timestamp)));
  }

  /** The body has every key the message needs, the listed resources when a breakdown is due, and a region. */
  predicate Composable(cf: map<string, string>, cloud: Cloud)
  {
    && RequiredKeys <= cf.Keys
    && (cf["ResourceStatus"] in DescribeStackStatus ==> cf["StackName"] in cloud.stackResources)
    && GetStackRegion(cf["StackId"]).Some?
  }

  /**
   * What a composed stack message holds: the status text with its console link, the primary
   * attachment first, a breakdown second exactly for the statuses that call for one, and a
   * channel only when the channel lookup for the stack gives a non-empty name.
   */
  ghost predicate IsStackUpdateMessage(
    m: Message, cf: map<string, string>, config: Config, cloud: Cloud, urlencode: map<string, string> -> string)
    requires Composable(cf, cloud)
  {
    var status, name, stackId := cf["ResourceStatus"], cf["StackName"], cf["StackId"];
    var channel := GetChannel(config, Some(name));
    && m.Keys == {"text", "attachments"} + (if IsTruthy(channel) then {"channel"} else {})
    && m["text"] == Str(StatusText(name, status, GetStackUrl(stackId, urlencode).value))
    && m["attachments"].Attachments?
    && |m["attachments"].items| == (if status in DescribeStackStatus then 2 else 1)
    && m["attachments"].items[0] == StackUpdate(
         ColorFor(status), UpdateFields(stackId, UserName(cloud.users, cf["PrincipalId"]), cf["Timestamp"]))
    && (status in DescribeStackStatus ==>
         m["attachments"].items[1] == GetStackSummaryAttachment(cloud.stackResources[name]))
    && ("channel" in m ==> m["channel"] == Str(channel.value))
  }

  /** `get_stack_update_message`: appends the breakdown when due and sets the channel when truthy. */
  method GetStackUpdateMessage(
    cf: map<string, string>, config: Config, cloud: Cloud, urlencode: map<string, string> -> string)
    returns (r: Result<Message, Error>)
    ensures r.Success? <==> Composable(cf, cloud)
    ensures r.Success? ==> IsStackUpdateMessage(r.value, cf, config, cloud, urlencode)
    ensures RequiredKeys <= cf.Keys && cf["ResourceStatus"] in DescribeStackStatus
            && cf["StackName"] !in cloud.stackResources
            ==> r == Failure(UnknownStack(cf["StackName"]))
    ensures RequiredKeys <= cf.Keys
            && (cf["ResourceStatus"] in DescribeStackStatus ==> cf["StackName"] in cloud.stackResources)
            && GetStackRegion(cf["StackId"]).None?
            ==> r == Failure(MalformedStackId(cf["StackId"]))
    ensures !(AttachmentKeys <= cf.Keys)
            ==> r.Failure? && r.error.MissingKey?
    ensures AttachmentKeys <= cf.Keys && "StackName" !in cf
            && (cf["ResourceStatus"] in DescribeStackStatus || GetStackRegion(cf["StackId"]).Some?)
            ==> r == Failure(MissingKey("StackName"))
  {
    var primary :- GetStackUpdateAttachment(cf, cloud.users);
    var attachments := [primary];
    var status := cf["ResourceStatus"];  // present: the primary attachment read it
    if status in DescribeStackStatus {
      var name :- Get(cf, "StackName");
      if name !in cloud.stackResources {
        return Failure(UnknownStack(name));
      }
      attachments := attachments + [GetStackSummaryAttachment(cloud.stackResources[name])];
    }
    var url :- GetStackUrl(cf["StackId"], urlencode);
    var name :- Get(cf, "StackName");
    var message: Message := map["text" := Str(StatusText(name, status, url)), "attachments" := Attachments(attachments)];
    var channel := GetChannel(config, Some(name));
    if IsTruthy(channel) {
      message := message["channel" := Str(channel.value)];
    }
    return Success(message);
  }

  /**
   * What `report_stack_update` gives for one parsed body: the parse failure, a KeyError without a
   * resource type, nothing for an event about anything but the stack itself, else the stack message.
   */
  ghost predicate StackReport(
    r: Result<Message, Error>, event: Event, config: Config, cloud: Cloud, urlencode: map<string, string> -> string)
  {
    if event.records == [] then r == Failure(NoRecord)
    else match ParseTokens(event.records[0])
      case Failure(e) => r == Failure(e)
      case Success(cf) =>
        if "ResourceType" !in cf then r == Failure(MissingKey("ResourceType"))
        else if cf["ResourceType"] != StackResourceType then r == Success(map[])
        else
          && (r.Success? <==> Composable(cf, cloud))
          && (r.Success? ==> IsStackUpdateMessage(r.value, cf, config, cloud, urlencode))
  }

  /** `report_stack_update`: parse the first record's body and report on the stack itself only. */
  method ReportStackUpdate(event: Event, config: Config, cloud: Cloud, urlencode: map<string, string> -> string)
    returns (r: Result<Message, Error>)
    ensures StackReport(r, event, config, cloud, urlencode)
    ensures r.Success? ==> r.value.Keys <= {"text", "attachments", "channel"}
  {
    if event.records == [] {
      return Failure(NoRecord);
    }
    var cf :- ParseTokens(event.records[0]);
    var resourceType :- Get(cf, "ResourceType");
    if resourceType != StackResourceType {
      return Success(map[]);
    }
    r := GetStackUpdateMessage(cf, config, cloud, urlencode);
  }

  /** The defaults every posted message starts from. */
  function Defaults(channel: Option<string>): (m: Message)
    ensures m.Keys == {"channel", "icon_emoji", "username"}
  {
    map[
      "channel" := (if channel.Some? then Str(channel.value) else Null),
      "icon_emoji" := Str(":cloud:"),
      "username" := Str("cf-bot")]
  }

  /** Overlaying a partial message that sets none of the display keys keeps the default icon and name. */
  lemma OverlayKeepsDisplay(channel: Option<string>, partial: Message)
    requires partial.Keys <= {"text", "attachments", "channel"}
    ensures var m := Defaults(channel) + partial;
      "channel" in m && m["icon_emoji"] == Str(":cloud:") && m["username"] == Str("cf-bot")
  {
  }

  /**
   * `lambda_handler`: route on the event source, lay the partial message over the defaults (a
   * key the partial message sets wins, every other default stays), and post it unless debugging.
   * `delivered` says whether the webhook is called.
   */
  method LambdaHandler(event: Event, config: Config, cloud: Cloud, urlencode: map<string, string> -> string)
    returns (r: Result<Message, Error>, delivered: bool)
    ensures delivered <==> r.Success? && !IsDebugging(config)
    ensures event.source == Some(ScheduledSource)
            ==> r == Success(Defaults(GetChannel(config, None)) + ReportStacksWithoutNotifications(cloud.stacks))
    ensures event.source != Some(ScheduledSource)
            ==> exists report :: StackReport(report, event, config, cloud, urlencode)
                  && r == (if report.Failure? then Failure(report.error)
                           else Success(Defaults(GetChannel(config, None)) + report.value))
    ensures r.Success? ==> && "channel" in r.value
                           && r.value["icon_emoji"] == Str(":cloud:")
                           && r.value["username"] == Str("cf-bot")
  {
    var partial: Message;
    if event.source == Some(ScheduledSource) {
      partial := ReportStacksWithoutNotifications(cloud.stacks);
    } else {
      var report := ReportStackUpdate(event, config, cloud, urlencode);
      if report.Failure? {
        r, delivered := Failure(report.error), false;
        assert StackReport(report, event, config, cloud, urlencode);
        return;
      }
      partial := report.value;
      assert StackReport(report, event, config, cloud, urlencode);
    }
    OverlayKeepsDisplay(GetChannel(config, None), partial);
    var message := Defaults(GetChannel(config, None));
    message := message + partial;
    delivered := !IsDebugging(config);
    r := Success(message);
  }
}
