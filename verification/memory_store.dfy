/** The in-memory store (internal/store/memory.go): a map of requests and a
    map of playlists, both keyed by id. Every operation's Go error is either
    always nil, in which case the function returns the new store, or can
    be "item not found" / "playlist not found", in which case it returns a
    `Result` and an `Err` leaves the store as it was. Go's iteration over a
    map visits the keys in an unspecified order; the listing methods pick
    each next key nondeterministically. */
module MemoryStore {
  import opened Results
  import opened Models

  datatype Memory = Memory(items: map<Uuid, Request>, playlists: map<Uuid, Playlist>)

  /** Every entry is stored under its own id. */
  ghost predicate Valid(m: Memory) {
    && (forall id :: id in m.items ==> m.items[id].id == id)
    && (forall id :: id in m.playlists ==> m.playlists[id].id == id)
  }

  const ItemNotFound: string := "item not found"
  const PlaylistNotFound: string := "playlist not found"

  const Empty: Memory := Memory(map[], map[])

  /** `GetItem`: the stored request, or "item not found". */
  function GetItem(m: Memory, id: Uuid): (r: Result<Request>)
    ensures r.Ok? <==> id in m.items
    ensures r.Ok? ==> r.value == m.items[id]
    ensures r.Err? ==> r.msg == ItemNotFound
  {
    if id in m.items then Ok(m.items[id]) else Err(ItemNotFound)
  }

  /** `GetPlaylist`: the playlist's name, or "playlist not found". */
  function GetPlaylist(m: Memory, id: Uuid): (r: Result<string>)
    ensures r.Ok? <==> id in m.playlists
    ensures r.Ok? ==> r.value == m.playlists[id].name
    ensures r.Err? ==> r.msg == PlaylistNotFound
  {
    if id in m.playlists then Ok(m.playlists[id].name) else Err(PlaylistNotFound)
  }

  /** `UpdateItem`: an upsert under the request's own id. */
  function UpdateItem(m: Memory, x: Request): (m': Memory)
    ensures GetItem(m', x.id) == Ok(x)
    ensures forall id :: id != x.id ==> GetItem(m', id) == GetItem(m, id)
    ensures m'.playlists == m.playlists
    ensures Valid(m) ==> Valid(m')
  {
    m.(items := m.items[x.id := x])
  }

  /** `SetStatus`: rewrites the status of a stored request, or fails with
      "item not found". */
  function SetStatus(m: Memory, id: Uuid, status: Status): (r: Result<Memory>)
    ensures r.Ok? <==> id in m.items
    ensures r.Err? ==> r.msg == ItemNotFound
    ensures r.Ok? ==> GetItem(r.value, id) == Ok(m.items[id].(status := status))
    ensures r.Ok? ==> forall j :: j != id ==> GetItem(r.value, j) == GetItem(m, j)
    ensures r.Ok? ==> r.value.playlists == m.playlists
    ensures r.Ok? && Valid(m) ==> Valid(r.value)
  {
    if id in m.items then
      Ok(m.(items := m.items[id := m.items[id].(status := status)]))
    else
      Err(ItemNotFound)
  }

  /** `DeleteItem`: removes the id if present; never fails. */
  function DeleteItem(m: Memory, id: Uuid): (m': Memory)
    ensures GetItem(m', id).Err?
    ensures forall j :: j != id ==> GetItem(m', j) == GetItem(m, j)
    ensures m'.playlists == m.playlists
    ensures Valid(m) ==> Valid(m')
  {
    m.(items := m.items - {id})
  }

  /** `CreatePlaylist`: an upsert of the playlist named `name`. */
  function CreatePlaylist(m: Memory, id: Uuid, name: string): (m': Memory)
    ensures GetPlaylist(m', id) == Ok(name)
    ensures forall j :: j != id ==> GetPlaylist(m', j) == GetPlaylist(m, j)
    ensures m'.items == m.items
    ensures Valid(m) ==> Valid(m')
  {
    m.(playlists := m.playlists[id := Playlist(id, name)])
  }

  /** `UpdatePlaylist` delegates to `CreatePlaylist`. */
  function UpdatePlaylist(m: Memory, id: Uuid, name: string): (m': Memory)
    ensures m' == CreatePlaylist(m, id, name)
  {
    CreatePlaylist(m, id, name)
  }

  /** `DeletePlaylist`: removes the id if present; never fails. */
  function DeletePlaylist(m: Memory, id: Uuid): (m': Memory)
    ensures GetPlaylist(m', id).Err?
    ensures forall j :: j != id ==> GetPlaylist(m', j) == GetPlaylist(m, j)
    ensures m'.items == m.items
    ensures Valid(m) ==> Valid(m')
  {
    m.(playlists := m.playlists - {id})
  }

  /** `NewMemoryStore`: no items and the default playlist under the given
      name. */
  function NewMemoryStore(defaultName: string): (m: Memory)
    ensures Valid(m)
    ensures m.items == map[]
    ensures forall id :: GetPlaylist(m, id)
                         == (if id == DefaultPlaylist then Ok(defaultName) else Err(PlaylistNotFound))
  {
    CreatePlaylist(Empty, DefaultPlaylist, defaultName)
  }

  /** Deleting twice is deleting once. */
  lemma DeleteItemIdempotent(m: Memory, id: Uuid)
    ensures DeleteItem(DeleteItem(m, id), id) == DeleteItem(m, id)
  {
    assert DeleteItem(DeleteItem(m, id), id).items == DeleteItem(m, id).items;
  }

  lemma DeletePlaylistIdempotent(m: Memory, id: Uuid)
    ensures DeletePlaylist(DeletePlaylist(m, id), id) == DeletePlaylist(m, id)
  {
    assert DeletePlaylist(DeletePlaylist(m, id), id).playlists == DeletePlaylist(m, id).playlists;
  }

  /** Two upserts of the same id: the second wins. */
  lemma UpdateItemLastWins(m: Memory, x: Request, y: Request)
    requires x.id == y.id
    ensures UpdateItem(UpdateItem(m, x), y) == UpdateItem(m, y)
  {
    assert UpdateItem(UpdateItem(m, x), y).items == UpdateItem(m, y).items;
  }

  /** The keys of `m` whose value satisfies `keep`, each once, in an
      unspecified order. */
  method Enumerate<V>(m: map<Uuid, V>, keep: V -> bool) returns (keys: seq<Uuid>)
    ensures forall k :: k in keys <==> k in m && keep(m[k])
    ensures forall i, j :: 0 <= i < j < |keys| ==> keys[i] != keys[j]
  {
    keys := [];
    var rest := m.Keys;
    while rest != {}
      invariant rest <= m.Keys
      invariant forall k :: k in keys <==> k in m && k !in rest && keep(m[k])
      invariant forall i, j :: 0 <= i < j < |keys| ==> keys[i] != keys[j]
      decreases rest
    {
      var k :| k in rest;
      if keep(m[k]) {
        keys := keys + [k];
      }
      rest := rest - {k};
    }
  }

  /** The stored requests whose playlist is `playlist`, or all of them
      when `playlist` is `None`; in a valid store, each exactly once. */
  method Collect(m: Memory, playlist: Option<Uuid>) returns (r: seq<Request>)
    ensures forall x :: x in r <==> x in m.items.Values && (playlist.Some? ==> x.playlist == playlist.value)
    ensures Valid(m) ==> forall i, j :: 0 <= i < j < |r| ==> r[i].id != r[j].id
  {
    var keys := Enumerate(m.items, (x: Request) => playlist.Some? ==> x.playlist == playlist.value);
    r := seq(|keys|, i requires 0 <= i < |keys| => m.items[keys[i]]);
    forall x | x in m.items.Values && (playlist.Some? ==> x.playlist == playlist.value)
      ensures x in r
    {
      var k :| k in m.items && m.items[k] == x;
      var i :| 0 <= i < |keys| && keys[i] == k;
      assert r[i] == x;
    }
  }

  /** `LoadDatabase`: every stored request, each once. */
  method LoadDatabase(m: Memory) returns (r: seq<Request>)
    ensures forall x :: x in r <==> x in m.items.Values
    ensures Valid(m) ==> forall i, j :: 0 <= i < j < |r| ==> r[i].id != r[j].id
  {
    r := Collect(m, None);
  }

  /** `LoadFromPlaylist`: exactly the stored requests of one playlist, each
      once. */
  method LoadFromPlaylist(m: Memory, playlist: Uuid) returns (r: seq<Request>)
    ensures forall x :: x in r <==> x in m.items.Values && x.playlist == playlist
    ensures Valid(m) ==> forall i, j :: 0 <= i < j < |r| ==> r[i].id != r[j].id
  {
    r := Collect(m, Some(playlist));
  }

  /** `ListPlaylist`: every playlist, each once. */
  method ListPlaylist(m: Memory) returns (r: seq<Playlist>)
    ensures forall p :: p in r <==> p in m.playlists.Values
    ensures Valid(m) ==> forall i, j :: 0 <= i < j < |r| ==> r[i].id != r[j].id
  {
    var keys := Enumerate(m.playlists, (p: Playlist) => true);
    r := seq(|keys|, i requires 0 <= i < |keys| => m.playlists[keys[i]]);
    forall p | p in m.playlists.Values
      ensures p in r
    {
      var k :| k in m.playlists && m.playlists[k] == p;
      var i :| 0 <= i < |keys| && keys[i] == k;
      assert r[i] == p;
    }
  }

  /** `CheckforDuplicate`: whether some stored request has this source URL.
      The playlist argument is not consulted; the error is always nil. */
  method CheckforDuplicate(m: Memory, sourceUrl: string, playlist: Uuid) returns (found: bool)
    ensures found <==> exists id :: id in m.items && m.items[id].sourceUrl == sourceUrl
  {
    var rest := m.items.Keys;
    while rest != {}
      invariant rest <= m.items.Keys
      invariant forall id :: id in m.items && id !in rest ==> m.items[id].sourceUrl != sourceUrl
      decreases rest
    {
      var id :| id in rest;
      if m.items[id].sourceUrl == sourceUrl {
        return true;
      }
      rest := rest - {id};
    }
    return false;
  }
}
