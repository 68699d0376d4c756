/** The values the pages hand to `completeStep` as a step's `data`. */
module Records {

  /** `type: "Digital" | "Traditional"`. */
  datatype ChannelKind = Digital | Traditional

  /** `interface Channel` without its `reasoning` prose. */
  datatype Channel = Channel(name: string, kind: ChannelKind, relevance: nat)

  /** `Date.prototype.getMonth`: 0 for January up to 11 for December. */
  type MonthIndex = m: nat | m < 12

  /** A milestone date: a month shifted from the start, or a fixed text such as "2025-10-28". */
  datatype MilestoneDate = MonthOf(year: int, month: MonthIndex) | Fixed(text: string)

  /** `interface Milestone` without its `description` prose. */
  datatype Milestone = Milestone(phase: string, date: MilestoneDate, title: string)

  /** The `data` of a completed step. */
  datatype Payload = ChannelList(channels: seq<Channel>) | MilestoneList(milestones: seq<Milestone>)
}
