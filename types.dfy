/** The application's domain records (app/types/index.ts). All of them are plain
    values: the application replaces them, it never updates one in place. */
module Types {

  datatype Option<T> = None | Some(value: T)

  /** `priceRange`: '$' | '$$' | '$$$' | '$$$$'. */
  datatype PriceRange = OneSign | TwoSigns | ThreeSigns | FourSigns

  /** A place shown on the map and in the list. `venueType` stands for the field
      `type`; it is a plain string because records built from the completion service
      are cast into the union 'restaurant' | 'bar' | 'event' | 'cafe' unchecked.
      `socialSentimentScore` is conventionally in [0, 1] but nothing enforces it. */
  datatype Recommendation = Recommendation(
    recommendationId: string,
    name: string,
    address: string,
    venueType: string,
    vibeTags: seq<string>,
    socialSentimentScore: real,
    sourceDataUrl: Option<string>,
    latitude: real,
    longitude: real,
    timestamp: string,
    description: Option<string>,
    priceRange: Option<PriceRange>,
    openNow: Option<bool>)

  /** `type` of a chat message. */
  datatype MessageKind = User | Assistant | System

  /** A chat message; `kind` stands for the field `type`. */
  datatype ChatMessage = ChatMessage(id: string, kind: MessageKind, content: string, timestamp: string)

  /** A filter chip; only `active` ever changes. `caption` stands for the field `label`
      (a keyword in Dafny). */
  datatype VibeFilter = VibeFilter(id: string, caption: string, emoji: string, active: bool)
}
