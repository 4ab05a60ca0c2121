/** The shared record types of tubefeed: 128-bit ids, the item status, the
    download request and the playlist. */
module Models {
  import opened Results

  /** A `uuid.UUID`: sixteen bytes, read as one big-endian number. */
  newtype Uuid = x: int | 0 <= x < 0x1_0000_0000_0000_0000_0000_0000_0000_0000

  /** `uuid.Nil`. */
  const NilUuid: Uuid := 0

  /** `Default_playlist`, "0353a984-1b53-4e45-bd2c-d4b5da90850f". */
  const DefaultPlaylist: Uuid := 0x0353_a984_1b53_4e45_bd2c_d4b5_da90_850f

  /** The five statuses an item passes through, plus the empty string a
      zero `Request` carries. */
  datatype Status = Unset | New | Meta | Loading | Ready | Error {
    /** The text the status is stored as. */
    function Name(): string {
      match this
      case Unset => ""
      case New => "New"
      case Meta => "FetchingMeta"
      case Loading => "Downloading"
      case Ready => "Available"
      case Error => "Error"
    }
  }

  /** `models.Request`. `sourceUrl` is the field the store and the
      downloader read and write. */
  datatype Request = Request(
    id: Uuid,
    title: string,
    url: string,
    sourceUrl: string,
    playlist: Uuid,
    progress: int,
    done: bool,
    error: Option<string>,
    status: Status)

  /** `models.Request{}`. */
  const ZeroRequest: Request := Request(NilUuid, "", "", "", NilUuid, 0, false, None, Unset)

  /** `models.Playlist`. */
  datatype Playlist = Playlist(id: Uuid, name: string)
}
