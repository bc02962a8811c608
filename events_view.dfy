/**
 * The three card renderers of js/events.js, as view-models: the fields each
 * card shows, chosen by the same rules as the HTML templates, without the
 * markup and inline styles.
 *
 * `formatShort` stands for `formatDateShort`, whose output depends on the
 * browser's locale; the renderers only ever use it as the start of the meta
 * line.
 */
module EventsView {
  import opened JsValues
  import Strings
  import Encoding
  import opened EventsQuery

  /** The glyph shown when a record has no emoji: U+1F4C5 CALENDAR. */
  const DefaultEmoji: string := "\U{1F4C5}"

  /** The literal the source uses for `DefaultEmoji` (see `DefaultEmojiAsWritten`). */
  const DefaultEmojiLiteral: string := "ðŸ“…"

  /** The tag shown when a record has none. */
  const DefaultTag: string := "Event"

  /** What separates the date from the time on a card: U+2022 BULLET between spaces. */
  const MetaSeparator: string := " • "

  /** The literal the source uses for `MetaSeparator` (see `MetaSeparatorAsWritten`). */
  const MetaSeparatorLiteral: string := " â€¢ "

  /** Where homepage card images are served from. */
  const ImageFolder: string := "images/"

  /** The picture area of a card: an image, or a placeholder holding an emoji. */
  datatype Visual = Picture(src: string, alt: string) | Placeholder(emoji: string)

  /** A homepage card or a special-event card. */
  datatype CardView = CardView(visual: Visual, tag: string, title: string, text: string, meta: string)

  /** The access label of a recurring event: its CSS modifier class and its text. */
  datatype AccessTag = AccessTag(tagClass: string, text: string)

  /** An entry of the recurring-events schedule. */
  datatype RecurringView = RecurringView(
    icon: string, title: string, schedule: string, description: string, access: AccessTag)

  // ---------------------------------------------------------------------
  // Shared fallbacks

  /** `event.emoji || <calendar>`. */
  function EmojiSlot(emoji: Option<string>): (r: string)
    ensures r != ""
    ensures Truthy(emoji) ==> r == emoji.value
    ensures !Truthy(emoji) ==> r == DefaultEmoji
  {
    OrElse(emoji, DefaultEmoji)
  }

  /** `event.tag || 'Event'`. */
  function TagSlot(tag: Option<string>): (r: string)
    ensures r != ""
    ensures Truthy(tag) ==> r == tag.value
    ensures !Truthy(tag) ==> r == DefaultTag
  {
    OrElse(tag, DefaultTag)
  }

  /** `formatDateShort(event.date)` followed by `' • ' + event.time` when the time is set. */
  function MetaLine(formatShort: string -> string, date: string, time: Option<string>): (r: string)
    ensures Strings.StartsWith(r, formatShort(date))
    ensures Truthy(time) ==> r[|formatShort(date)|..] == MetaSeparator + time.value
    ensures !Truthy(time) ==> r == formatShort(date)
  {
    formatShort(date) + (if Truthy(time) then MetaSeparator + time.value else "")
  }

  // ---------------------------------------------------------------------
  // The renderers

  /** `renderEventCard`: the homepage teaser. */
  function RenderEventCard(e: EventFields, formatShort: string -> string): (v: CardView)
    ensures v.visual.Picture? <==> Truthy(e.image)
    ensures v.visual.Picture? ==> v.visual == Picture(ImageFolder + e.image.value, Interpolated(e.title))
    ensures v.visual.Placeholder? ==> v.visual.emoji == EmojiSlot(e.emoji)
  {
    var imageUrl := if Truthy(e.image) then ImageFolder + e.image.value else "";
    CardView(
      if imageUrl != "" then Picture(imageUrl, Interpolated(e.title)) else Placeholder(EmojiSlot(e.emoji)),
      TagSlot(e.tag), Interpolated(e.title), Interpolated(e.description), MetaLine(formatShort, e.date, e.time))
  }

  /** `renderSpecialEventCard`: the events-page card, always with the emoji placeholder. */
  function RenderSpecialEventCard(e: EventFields, formatShort: string -> string): (v: CardView)
    ensures v.visual == Placeholder(EmojiSlot(e.emoji))
  {
    CardView(Placeholder(EmojiSlot(e.emoji)), TagSlot(e.tag), Interpolated(e.title),
             Interpolated(e.description), MetaLine(formatShort, e.date, e.time))
  }

  /**
   * The access label the `if` chain of `renderRecurringEvent` selects: the
   * label of the record's tier in the tier table below.
   */
  function AccessTagOf(accessLevel: Option<string>, openToAll: bool): (r: AccessTag)
    ensures r == TierTag(TierOf(accessLevel, openToAll))
  {
    if accessLevel == Some("open") then
      AccessTag("recurring-event__tag--open", "Open to All")
    else if accessLevel == Some("members") then
      AccessTag("recurring-event__tag--members-only", "Members Only")
    else if accessLevel == Some("guests") then
      AccessTag("recurring-event__tag--members", "Members & Guests")
    else
      AccessTag(if openToAll then "recurring-event__tag--open" else "recurring-event__tag--members",
                if openToAll then "Open to All" else "Members & Guests")
  }

  /** `renderRecurringEvent`: one schedule entry. */
  function RenderRecurringEvent(e: RecurringFields): (v: RecurringView)
    ensures v.icon == EmojiSlot(e.emoji)
    ensures v.access == AccessTagOf(e.accessLevel, e.openToAll)
  {
    RecurringView(EmojiSlot(e.emoji), Interpolated(e.title), Interpolated(e.schedule),
                  Interpolated(e.description), AccessTagOf(e.accessLevel, e.openToAll))
  }

  // ---------------------------------------------------------------------
  // The access tiers, as a table

  datatype Tier = OpenToAll | MembersOnly | MembersAndGuests

  /** The label of each tier. */
  function TierTag(t: Tier): AccessTag
  {
    match t
    case OpenToAll => AccessTag("recurring-event__tag--open", "Open to All")
    case MembersOnly => AccessTag("recurring-event__tag--members-only", "Members Only")
    case MembersAndGuests => AccessTag("recurring-event__tag--members", "Members & Guests")
  }

  /** The `accessLevel` values that name a tier. */
  const ExplicitTiers: map<string, Tier> :=
    map["open" := OpenToAll, "members" := MembersOnly, "guests" := MembersAndGuests]

  /** The tier a record belongs to: its explicit tier, else the legacy flag's. */
  function TierOf(accessLevel: Option<string>, openToAll: bool): Tier
  {
    if accessLevel.Some? && accessLevel.value in ExplicitTiers then ExplicitTiers[accessLevel.value]
    else if openToAll then OpenToAll
    else MembersAndGuests
  }

  /** Each explicit tier has its own label, whatever the legacy flag says. */
  lemma ExplicitTierWins(e: RecurringFields)
    ensures e.accessLevel == Some("open") ==>
      RenderRecurringEvent(e).access == AccessTag("recurring-event__tag--open", "Open to All")
    ensures e.accessLevel == Some("members") ==>
      RenderRecurringEvent(e).access == AccessTag("recurring-event__tag--members-only", "Members Only")
    ensures e.accessLevel == Some("guests") ==>
      RenderRecurringEvent(e).access == AccessTag("recurring-event__tag--members", "Members & Guests")
    ensures e.accessLevel.Some? && e.accessLevel.value in ExplicitTiers ==>
      RenderRecurringEvent(e).access == RenderRecurringEvent(e.(openToAll := !e.openToAll)).access
  {
  }

  /**
   * Without an explicit tier the label depends on the legacy flag alone:
   * set, "Open to All"; unset, "Members & Guests".
   */
  lemma LegacyFlagDecides(e: RecurringFields, other: Option<string>)
    requires e.accessLevel.None? || e.accessLevel.value !in ExplicitTiers
    requires other.None? || other.value !in ExplicitTiers
    ensures RenderRecurringEvent(e).access == RenderRecurringEvent(e.(accessLevel := other)).access
    ensures RenderRecurringEvent(e).access ==
      if e.openToAll then AccessTag("recurring-event__tag--open", "Open to All")
      else AccessTag("recurring-event__tag--members", "Members & Guests")
  {
  }

  /**
   * The emoji slot is never empty on any of the three renderers: each shows
   * the record's emoji when it has one and the calendar glyph otherwise (the
   * homepage card has an emoji slot only when it has no image).
   */
  lemma EmojiNeverEmpty(e: EventFields, r: RecurringFields, formatShort: string -> string)
    ensures !Truthy(e.image) ==> RenderEventCard(e, formatShort).visual.emoji != ""
    ensures !Truthy(e.image) ==>
      RenderEventCard(e, formatShort).visual.emoji == RenderSpecialEventCard(e, formatShort).visual.emoji
    ensures RenderSpecialEventCard(e, formatShort).visual.emoji != ""
    ensures RenderRecurringEvent(r).icon != ""
    ensures RenderSpecialEventCard(e, formatShort).visual.emoji ==
            (if Truthy(e.emoji) then e.emoji.value else DefaultEmoji)
    ensures RenderRecurringEvent(r).icon == (if Truthy(r.emoji) then r.emoji.value else DefaultEmoji)
  {
  }

  /**
   * The two event cards show the same tag, title, text and meta line, and
   * differ at most in the picture area; without an image they are the same card.
   */
  lemma CardsShareText(e: EventFields, formatShort: string -> string)
    ensures var home := RenderEventCard(e, formatShort);
      var special := RenderSpecialEventCard(e, formatShort);
      && home.(visual := special.visual) == special
      && (!Truthy(e.image) ==> home == special)
    ensures RenderEventCard(e, formatShort).tag == (if Truthy(e.tag) then e.tag.value else DefaultTag)
  {
  }

  // ---------------------------------------------------------------------
  // The two literals as written

  /** The default emoji as the source spells it. */
  function EmojiSlotAsWritten(emoji: Option<string>): (r: string)
    ensures !Truthy(emoji) ==> r == DefaultEmojiLiteral
  {
    OrElse(emoji, DefaultEmojiLiteral)
  }

  /** The meta line as the source spells it. */
  function MetaLineAsWritten(formatShort: string -> string, date: string, time: Option<string>): (r: string)
    ensures Truthy(time) ==> r == formatShort(date) + MetaSeparatorLiteral + time.value
  {
    formatShort(date) + (if Truthy(time) then MetaSeparatorLiteral + time.value else "")
  }

  /**
   * The source's default emoji is four characters, the windows-1252 reading
   * of the four UTF-8 bytes of the calendar glyph, so a record without an
   * emoji shows "ðŸ“…" instead of the calendar.
   */
  lemma DefaultEmojiAsWritten()
    ensures DefaultEmojiLiteral == Encoding.Mojibake(DefaultEmoji)
    ensures EmojiSlotAsWritten(None) != EmojiSlot(None)
    ensures |EmojiSlotAsWritten(None)| == 4 && |EmojiSlot(None)| == 1
  {
    assert Encoding.Utf8(DefaultEmoji) == [0xF0, 0x9F, 0x93, 0x85];
  }

  /**
   * Likewise the separator between date and time reads "â€¢" where a bullet
   * was meant.
   */
  lemma MetaSeparatorAsWritten(formatShort: string -> string, date: string, time: string)
    requires time != ""
    ensures MetaSeparatorLiteral == " " + Encoding.Mojibake("•") + " "
    ensures MetaLineAsWritten(formatShort, date, Some(time)) != MetaLine(formatShort, date, Some(time))
  {
    assert Encoding.Utf8("•") == [0xE2, 0x80, 0xA2];
    var n := |formatShort(date)|;
    assert MetaLineAsWritten(formatShort, date, Some(time))[n + 1] == 'â';
    assert MetaLine(formatShort, date, Some(time))[n + 1] == '•';
  }
}
