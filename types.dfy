/** The records the application stores and displays. */
module Types {

  /** The five views of the application shell. */
  datatype AppTab = ImageWorkshopTab | VideoStudioTab | GalleryTab | ProfileTab | PlanningTab

  /** The `type` field of a generation: 'image' or 'video'. */
  datatype MediaType = Image | Video

  datatype Status = Pending | Completed | Failed

  /** One generated asset in the history. */
  datatype GenerationItem = GenerationItem(
    id: string,
    kind: MediaType,
    url: string,
    prompt: string,
    timestamp: int,
    isFavorite: bool,
    status: Status)

  /** The in-memory user profile; `credits` is displayed only. */
  datatype UserProfile = UserProfile(name: string, isVip: bool, credits: int, avatar: string)

  /** The record a workshop adds after a successful generation. */
  function CompletedItem(kind: MediaType, id: string, url: string, prompt: string, timestamp: int): (item: GenerationItem)
    ensures item.kind == kind && item.url == url && item.prompt == prompt
    ensures item.status == Completed && !item.isFavorite
    ensures item.id == id && item.timestamp == timestamp
  {
    GenerationItem(id, kind, url, prompt, timestamp, false, Completed)
  }
}
