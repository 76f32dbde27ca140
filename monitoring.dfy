/**
 * The values the command pipe works on: monitoring objects, the object
 * type discriminator, the instance configuration and the transport it
 * selects, and the format providers (comment, acknowledgement, downtime,
 * property modifier) whose templates the encoder fills in.
 */
module Monitoring {
  import opened Strings

  datatype Option<T> = None | Some(value: T)

  /**
   * The attributes of a host or service object that the encoder reads.
   * An attribute that is not set on the PHP object is `None`.
   */
  datatype Obj = Obj(
    hostName: string,
    serviceDescription: Option<string>,
    commentId: Option<int>,
    downtimeId: Option<int>)

  /** The object type constants of the command pipe. */
  datatype ObjectType = Host | Service | HostGroup | ServiceGroup

  /** The text of each object type constant, as used inside command names. */
  function TypeName(t: ObjectType): (name: string)
    ensures NoSep(name)
  {
    match t
    case Host => "HOST"
    case Service => "SVC"
    case HostGroup => "HOSTGROUP"
    case ServiceGroup => "SERVICEGROUP"
  }

  /** The type of an object: a service exactly when it has a service description. */
  function ObjectTypeOf(o: Obj): (t: ObjectType)
    ensures t == Host || t == Service
    ensures t == Service <==> o.serviceDescription.Some?
  {
    if o.serviceDescription.Some? then Service else Host
  }

  /** The service description of a service object, the empty text for a host. */
  function Description(o: Obj): (r: string) {
    match o.serviceDescription
    case Some(s) => s
    case None => ""
  }

  // ---------------------------------------------------------------------
  // Configuration and transport selection
  // ---------------------------------------------------------------------

  /** The part of an instance configuration the command pipe reads. */
  datatype Config = Config(name: string, host: Option<string>)

  /** The delivery channel: the local command file, or a remote one reached over ssh. */
  datatype Transport = LocalPipe(endpoint: Config) | SecureShell(endpoint: Config)

  /** The transport configured for an instance: remote exactly when a host is configured. */
  function TransportFor(config: Config): (t: Transport)
    ensures t.endpoint == config
    ensures t.SecureShell? <==> config.host.Some?
  {
    if config.host.Some? then SecureShell(config) else LocalPipe(config)
  }

  // ---------------------------------------------------------------------
  // Format providers
  // ---------------------------------------------------------------------

  /**
   * A pair of templates the encoder can give to `sprintf`: the host one
   * takes at most the host name, the service one at most the host name and
   * the service description.
   */
  predicate Fillable(hostTemplate: string, serviceTemplate: string) {
    && Supported(hostTemplate) && SlotCount(hostTemplate) <= 1
    && Supported(serviceTemplate) && SlotCount(serviceTemplate) <= 2
  }

  /** What `getFormatString(type)` of a comment, acknowledgement or downtime returns. */
  type Formats = f: (string, string) | Fillable(f.0, f.1) witness ("", "")

  /** The template a provider gives for an object of type `t` (host or service). */
  function FormatString(f: Formats, t: ObjectType): (r: string)
    requires t == Host || t == Service
    ensures Supported(r) && SlotCount(r) <= (if t == Service then 2 else 1)
  {
    if t == Service then f.1 else f.0
  }

  /** A comment: its author, its text, and the templates that add it. */
  datatype Comment = Comment(author: string, comment: string, formats: Formats)

  /** An acknowledgement: the templates that acknowledge a problem. */
  datatype Acknowledgement = Acknowledgement(formats: Formats)

  /** A downtime: the templates that schedule it. */
  datatype Downtime = Downtime(formats: Formats)

  /** What the acknowledge operation accepts: a plain comment or an acknowledgement. */
  datatype AcknowledgementOrComment = PlainComment(c: Comment) | Ack(a: Acknowledgement)

  /**
   * The acknowledgement the operation uses: a plain comment is first
   * wrapped by `wrap`, the acknowledgement constructor taking a comment.
   */
  function AsAcknowledgement(input: AcknowledgementOrComment, wrap: Comment -> Acknowledgement): (a: Acknowledgement)
    ensures input.Ack? ==> a == input.a
    ensures input.PlainComment? ==> a == wrap(input.c)
  {
    match input
    case PlainComment(c) => wrap(c)
    case Ack(a) => a
  }

  /** The monitoring properties a property modifier can toggle. */
  datatype Property = Active | Passive | Flapping | Notifications | Freshness | EventHandler | Perfdata

  datatype PropertyState = Enable | Disable

  /** One entry of a property modifier. */
  datatype Flag = Flag(property: Property, state: PropertyState)

  /** A set of property changes, in the order they were given. */
  datatype PropertyModifier = PropertyModifier(flags: seq<Flag>)

  /**
   * The command template (without the object fields) that toggles one
   * property of an object of the given type.
   */
  type Catalog = (Flag, ObjectType) -> string

  /** What `getFormatString(type)` of a property modifier returns: one template per flag, in flag order. */
  function Templates(pm: PropertyModifier, t: ObjectType, catalog: Catalog): (ts: seq<string>)
    ensures |ts| == |pm.flags|
    ensures forall j :: 0 <= j < |ts| ==> ts[j] == catalog(pm.flags[j], t)
  {
    seq(|pm.flags|, j requires 0 <= j < |pm.flags| => catalog(pm.flags[j], t))
  }
}
