/**
 * The status badge: its property defaults and the lookup that maps a status or
 * priority string to a colour variant.
 */
module StatusBadge {
  import opened Wrappers
  import opened Types

  datatype Variant = Success | Warning | Danger | Info | Gray | Indigo | Purple
  datatype Size = Sm | Md | Lg

  /** The `variant` and `size` a badge is drawn with: absent properties default to gray and medium. */
  function BadgeStyle(variant: Option<Variant>, size: Option<Size>): (r: (Variant, Size))
    ensures variant.Some? ==> r.0 == variant.value
    ensures variant.None? ==> r.0 == Gray
    ensures size.Some? ==> r.1 == size.value
    ensures size.None? ==> r.1 == Md
  {
    (variant.GetOr(Gray), size.GetOr(Md))
  }

  /** The own entry of the `statusMap` object literal for `status`, if it has one. */
  function OwnEntry(status: string): Option<Variant>
  {
    match status
    case "active" => Some(Success)
    case "completed" => Some(Success)
    case "in_progress" => Some(Indigo)
    case "not-started" => Some(Gray)
    case "planning" => Some(Info)
    case "on-hold" => Some(Warning)
    case "cancelled" => Some(Danger)
    case "todo" => Some(Gray)
    case "in-progress" => Some(Indigo)
    case "review" => Some(Purple)
    case "blocked" => Some(Danger)
    case "high" => Some(Danger)
    case "medium" => Some(Warning)
    case "low" => Some(Info)
    case "critical" => Some(Danger)
    case _ => None
  }

  /** The keys of the literal. */
  const StatusKeys: set<string> := {
    "active", "completed", "in_progress", "not-started", "planning", "on-hold", "cancelled",
    "todo", "in-progress", "review", "blocked", "high", "medium", "low", "critical"}

  /**
   * `getStatusBadgeVariant`: the variant of an own entry, gray for anything
   * else. This is the lookup the return type promises; the literal as written
   * also answers for inherited property names (see `AsWrittenLookup`).
   */
  function StatusBadgeVariant(status: string): (v: Variant)
    ensures status !in StatusKeys ==> v == Gray
  {
    match OwnEntry(status)
    case Some(v) => v
    case None => Gray
  }

  /** The literal has an own entry exactly for its keys. */
  lemma OwnEntryIffKey(status: string)
    ensures OwnEntry(status).Some? <==> status in StatusKeys
  {
  }

  /** Each of the fifteen keys gets the colour the map lists for it. */
  lemma ListedVariants()
    ensures StatusBadgeVariant("active") == Success && StatusBadgeVariant("completed") == Success
    ensures StatusBadgeVariant("in-progress") == Indigo && StatusBadgeVariant("in_progress") == Indigo
    ensures StatusBadgeVariant("cancelled") == Danger && StatusBadgeVariant("blocked") == Danger
    ensures StatusBadgeVariant("high") == Danger && StatusBadgeVariant("critical") == Danger
    ensures StatusBadgeVariant("planning") == Info && StatusBadgeVariant("on-hold") == Warning
    ensures StatusBadgeVariant("review") == Purple && StatusBadgeVariant("not-started") == Gray
    ensures StatusBadgeVariant("todo") == Gray && StatusBadgeVariant("medium") == Warning
    ensures StatusBadgeVariant("low") == Info
  {
  }

  /** Every program, project and task status and every priority has its own entry. */
  lemma EveryEnumLiteralListed(ps: ProgramStatus, js: ProjectStatus, ts: TaskStatus, pr: Priority)
    ensures ProgramStatusText(ps) in StatusKeys
    ensures ProjectStatusText(js) in StatusKeys
    ensures TaskStatusText(ts) in StatusKeys
    ensures PriorityText(pr) in StatusKeys
  {
  }

  /** The string properties every object literal inherits from `Object.prototype`. */
  const PrototypeMembers: set<string> := {
    "constructor", "hasOwnProperty", "isPrototypeOf", "propertyIsEnumerable", "toString",
    "toLocaleString", "valueOf", "__proto__", "__defineGetter__", "__defineSetter__",
    "__lookupGetter__", "__lookupSetter__"}

  /** What `statusMap[status] || 'gray'` evaluates to. */
  datatype LookupResult = VariantValue(variant: Variant) | InheritedMember(name: string)

  /**
   * The expression as written: an own entry gives its variant; an inherited
   * member is a function or an object, hence truthy, so it is returned in place
   * of `'gray'`; anything else is `undefined` and falls back to gray.
   */
  function AsWrittenLookup(status: string): (r: LookupResult)
    ensures r.InheritedMember? <==> status !in StatusKeys && status in PrototypeMembers
  {
    match OwnEntry(status)
    case Some(v) => VariantValue(v)
    case None => if status in PrototypeMembers then InheritedMember(status) else VariantValue(Gray)
  }

  /** The two lookups agree except on inherited member names. */
  lemma AsWrittenAgreesOffPrototype(status: string)
    requires status !in PrototypeMembers
    ensures AsWrittenLookup(status) == VariantValue(StatusBadgeVariant(status))
  {
  }

  /** `getStatusBadgeVariant('constructor')` returns the `Object` constructor, not `'gray'`. */
  lemma ConstructorIsNotGray()
    ensures AsWrittenLookup("constructor") == InheritedMember("constructor")
    ensures StatusBadgeVariant("constructor") == Gray
  {
  }
}
