/**
  The music player panel: which playlists the search box shows, and the
  state changes of signing in and out, of opening and closing the two
  panels, and of choosing what to play.

  Replies of the Spotify Web API are parameters (`None` when the request
  threw or the reply lacked the expected field); the SDK player, the
  redirect and sessionStorage other than the stored token are not modelled.
*/
module SpotifyPlayer {
  import opened Optional

  datatype Playlist = Playlist(id: string, name: string, uri: string)
  datatype Track = Track(uri: string, name: string)

  /** `toLowerCase` on one character, for the ASCII letters. */
  function LowerChar(c: char): (l: char)
    ensures 'A' <= c <= 'Z' ==> 'a' <= l <= 'z' && l as int == c as int + 32
    ensures !('A' <= c <= 'Z') ==> l == c
  {
    if 'A' <= c <= 'Z' then (c as int + 32) as char else c
  }

  function LowerCase(s: string): (r: string)
    ensures |r| == |s|
    ensures forall i :: 0 <= i < |s| ==> r[i] == LowerChar(s[i])
    ensures forall i :: 0 <= i < |r| ==> !('A' <= r[i] <= 'Z')
  {
    seq(|s|, i requires 0 <= i < |s| => LowerChar(s[i]))
  }

  /** `needle` occurs in `hay` starting at position `i`. */
  predicate OccursAt(hay: string, needle: string, i: int)
  {
    0 <= i <= |hay| - |needle| && hay[i..i + |needle|] == needle
  }

  /** `String.prototype.includes`: `needle` occurs at some position of `hay`. */
  predicate Contains(hay: string, needle: string)
  {
    exists i | 0 <= i <= |hay| :: OccursAt(hay, needle, i)
  }

  /** A playlist is shown when its lower-cased name contains the lower-cased query. */
  predicate Matches(p: Playlist, query: string)
  {
    Contains(LowerCase(p.name), LowerCase(query))
  }

  /** The `filter` over the playlists that the search box applies. */
  function FilterByName(playlists: seq<Playlist>, query: string): (shown: seq<Playlist>)
    ensures |shown| <= |playlists|
    ensures forall p :: p in shown ==> p in playlists && Matches(p, query)
    decreases |playlists|
  {
    if playlists == [] then []
    else
      var rest := FilterByName(playlists[1..], query);
      if Matches(playlists[0], query) then [playlists[0]] + rest else rest
  }

  /** A playlist is shown exactly when it is in the list and matches the query. */
  lemma {:induction false} FilterKeepsExactlyMatches(playlists: seq<Playlist>, query: string, p: Playlist)
    ensures p in FilterByName(playlists, query) <==> p in playlists && Matches(p, query)
    decreases |playlists|
  {
    if playlists != [] {
      FilterKeepsExactlyMatches(playlists[1..], query, p);
      assert playlists == [playlists[0]] + playlists[1..];
    }
  }

  /** The filter keeps the original order: it distributes over concatenation. */
  lemma {:induction false} FilterPreservesOrder(a: seq<Playlist>, b: seq<Playlist>, query: string)
    ensures FilterByName(a + b, query) == FilterByName(a, query) + FilterByName(b, query)
    decreases |a|
  {
    if a == [] {
      assert a + b == b;
    } else {
      assert (a + b)[0] == a[0];
      assert (a + b)[1..] == a[1..] + b;
      FilterPreservesOrder(a[1..], b, query);
    }
  }

  /** Every string contains the empty string. */
  lemma ContainsEmpty(hay: string)
    ensures Contains(hay, "")
  {
    assert OccursAt(hay, "", 0);
  }

  /** An empty query shows every playlist. */
  lemma {:induction false} EmptyQueryShowsAll(playlists: seq<Playlist>)
    ensures FilterByName(playlists, "") == playlists
    decreases |playlists|
  {
    if playlists != [] {
      ContainsEmpty(LowerCase(playlists[0].name));
      assert LowerCase("") == "";
      EmptyQueryShowsAll(playlists[1..]);
      assert playlists == [playlists[0]] + playlists[1..];
    }
  }

  /** Filtering what is shown by the same query changes nothing. */
  lemma {:induction false} FilterIsIdempotent(playlists: seq<Playlist>, query: string)
    ensures FilterByName(FilterByName(playlists, query), query) == FilterByName(playlists, query)
    decreases |playlists|
  {
    if playlists != [] {
      FilterIsIdempotent(playlists[1..], query);
      var rest := FilterByName(playlists[1..], query);
      if Matches(playlists[0], query) {
        assert ([playlists[0]] + rest)[0] == playlists[0];
        assert ([playlists[0]] + rest)[1..] == rest;
      }
    }
  }

  class Player {
    var token: string
    var isAuthenticated: bool
    /** The `spotify_token` entry of sessionStorage. */
    var storedToken: Option<string>
    var uris: seq<string>
    var searchQuery: string
    var searchResults: seq<Track>
    var showSearch: bool
    var playlists: seq<Playlist>
    var showPlaylists: bool
    var playlistSearchQuery: string
    var selectedPlaylist: Option<Playlist>
    var playlistTracks: seq<Track>

    /**
      Signed in exactly when a token is held, and tracks are listed only
      while some playlist is selected (not necessarily the one they came
      from: a selection whose tracks request fails keeps the earlier list).
    */
    ghost predicate Valid()
      reads this
    {
      && isAuthenticated == (token != "")
      && (playlistTracks != [] ==> selectedPlaylist.Some?)
    }

    /** The playlists the search box shows. */
    function Shown(): seq<Playlist>
      reads this
    {
      FilterByName(playlists, playlistSearchQuery)
    }

    /** The component's initial state, with whatever token the session already stored. */
    constructor (stored: Option<string>)
      ensures Valid()
      ensures token == "" && !isAuthenticated && storedToken == stored
      ensures uris == [] && searchQuery == "" && searchResults == [] && !showSearch
      ensures playlists == [] && !showPlaylists && playlistSearchQuery == ""
      ensures selectedPlaylist == None && playlistTracks == []
    {
      token, isAuthenticated, storedToken := "", false, stored;
      uris, searchQuery, searchResults, showSearch := [], "", [], false;
      playlists, showPlaylists, playlistSearchQuery := [], false, "";
      selectedPlaylist, playlistTracks := None, [];
    }

    /** The mount effect without an authorization code: a non-empty stored token signs in. */
    method RestoreToken()
      requires Valid()
      modifies this
      ensures Valid()
      ensures storedToken.Some? && storedToken.value != "" ==> token == storedToken.value && isAuthenticated
      ensures !(storedToken.Some? && storedToken.value != "") ==> token == old(token) && isAuthenticated == old(isAuthenticated)
      ensures storedToken == old(storedToken) && uris == old(uris) && playlists == old(playlists)
      ensures selectedPlaylist == old(selectedPlaylist) && playlistTracks == old(playlistTracks)
      ensures searchQuery == old(searchQuery) && searchResults == old(searchResults) && showSearch == old(showSearch)
      ensures showPlaylists == old(showPlaylists) && playlistSearchQuery == old(playlistSearchQuery)
    {
      if storedToken.Some? && storedToken.value != "" {
        token := storedToken.value;
        isAuthenticated := true;
      }
    }

    /** The token exchange's reply: a non-empty `access_token` signs in and is stored. */
    method AcceptToken(accessToken: Option<string>)
      requires Valid()
      modifies this
      ensures Valid()
      ensures accessToken.Some? && accessToken.value != "" ==>
        token == accessToken.value && isAuthenticated && storedToken == accessToken
      ensures !(accessToken.Some? && accessToken.value != "") ==>
        token == old(token) && isAuthenticated == old(isAuthenticated) && storedToken == old(storedToken)
      ensures uris == old(uris) && playlists == old(playlists)
      ensures selectedPlaylist == old(selectedPlaylist) && playlistTracks == old(playlistTracks)
      ensures searchQuery == old(searchQuery) && searchResults == old(searchResults) && showSearch == old(showSearch)
      ensures showPlaylists == old(showPlaylists) && playlistSearchQuery == old(playlistSearchQuery)
    {
      if accessToken.Some? && accessToken.value != "" {
        token := accessToken.value;
        isAuthenticated := true;
        storedToken := accessToken;
      }
    }

    /** `handleLogout`: forgets the token, in the component and in sessionStorage. */
    method HandleLogout()
      requires Valid()
      modifies this
      ensures Valid()
      ensures token == "" && !isAuthenticated && storedToken == None
      ensures uris == old(uris) && playlists == old(playlists)
      ensures selectedPlaylist == old(selectedPlaylist) && playlistTracks == old(playlistTracks)
      ensures searchQuery == old(searchQuery) && searchResults == old(searchResults) && showSearch == old(showSearch)
      ensures showPlaylists == old(showPlaylists) && playlistSearchQuery == old(playlistSearchQuery)
    {
      token := "";
      isAuthenticated := false;
      storedToken := None;
    }

    /** The playlists button: toggles the playlist panel and closes the search panel. */
    method TogglePlaylists()
      requires Valid()
      modifies this
      ensures Valid()
      ensures showPlaylists == !old(showPlaylists) && !showSearch
      ensures token == old(token) && isAuthenticated == old(isAuthenticated) && storedToken == old(storedToken)
      ensures uris == old(uris) && playlists == old(playlists)
      ensures selectedPlaylist == old(selectedPlaylist) && playlistTracks == old(playlistTracks)
      ensures searchQuery == old(searchQuery) && searchResults == old(searchResults)
      ensures playlistSearchQuery == old(playlistSearchQuery)
    {
      showPlaylists := !showPlaylists;
      showSearch := false;
    }

    /** The search button: toggles the search panel and closes the playlist panel. */
    method ToggleSearch()
      requires Valid()
      modifies this
      ensures Valid()
      ensures showSearch == !old(showSearch) && !showPlaylists
      ensures token == old(token) && isAuthenticated == old(isAuthenticated) && storedToken == old(storedToken)
      ensures uris == old(uris) && playlists == old(playlists)
      ensures selectedPlaylist == old(selectedPlaylist) && playlistTracks == old(playlistTracks)
      ensures searchQuery == old(searchQuery) && searchResults == old(searchResults)
      ensures playlistSearchQuery == old(playlistSearchQuery)
    {
      showSearch := !showSearch;
      showPlaylists := false;
    }

    /**
      `searchTracks`: without a token or with an empty query the results are
      cleared; otherwise they become the reply's tracks, when it has any.
    */
    method SearchTracks(query: string, reply: Option<seq<Track>>)
      requires Valid()
      modifies this
      ensures Valid()
      ensures token == "" || query == "" ==> searchResults == []
      ensures token != "" && query != "" ==>
        searchResults == (if reply.Some? then reply.value else old(searchResults))
      ensures token == old(token) && isAuthenticated == old(isAuthenticated) && storedToken == old(storedToken)
      ensures uris == old(uris) && playlists == old(playlists)
      ensures selectedPlaylist == old(selectedPlaylist) && playlistTracks == old(playlistTracks)
      ensures searchQuery == old(searchQuery) && showSearch == old(showSearch)
      ensures showPlaylists == old(showPlaylists) && playlistSearchQuery == old(playlistSearchQuery)
    {
      if token == "" || query == "" {
        searchResults := [];
        return;
      }
      if reply.Some? {
        searchResults := reply.value;
      }
    }

    /** `viewPlaylistTracks`: selects the playlist, then lists its tracks when the reply has them. */
    method ViewPlaylistTracks(playlist: Playlist, reply: Option<seq<Track>>)
      requires Valid()
      modifies this
      ensures Valid()
      ensures selectedPlaylist == Some(playlist)
      ensures playlistTracks == (if token != "" && reply.Some? then reply.value else old(playlistTracks))
      ensures token == old(token) && isAuthenticated == old(isAuthenticated) && storedToken == old(storedToken)
      ensures uris == old(uris) && playlists == old(playlists)
      ensures searchQuery == old(searchQuery) && searchResults == old(searchResults) && showSearch == old(showSearch)
      ensures showPlaylists == old(showPlaylists) && playlistSearchQuery == old(playlistSearchQuery)
    {
      selectedPlaylist := Some(playlist);
      if token != "" && reply.Some? {
        playlistTracks := reply.value;
      }
    }

    /** `playTrack`: plays the one track, closes both panels and clears the search and the selection. */
    method PlayTrack(uri: string)
      requires Valid()
      modifies this
      ensures Valid()
      ensures uris == [uri]
      ensures !showSearch && searchQuery == "" && searchResults == []
      ensures !showPlaylists && selectedPlaylist == None && playlistTracks == []
      ensures playlistSearchQuery == old(playlistSearchQuery) && playlists == old(playlists)
      ensures token == old(token) && isAuthenticated == old(isAuthenticated) && storedToken == old(storedToken)
    {
      uris := [uri];
      showSearch := false;
      searchQuery := "";
      searchResults := [];
      showPlaylists := false;
      selectedPlaylist := None;
      playlistTracks := [];
    }

    /** `playPlaylist`: plays the playlist, closes its panel and clears its query and selection. */
    method PlayPlaylist(uri: string)
      requires Valid()
      modifies this
      ensures Valid()
      ensures uris == [uri]
      ensures !showPlaylists && playlistSearchQuery == "" && selectedPlaylist == None && playlistTracks == []
      ensures Shown() == playlists
      ensures showSearch == old(showSearch) && searchQuery == old(searchQuery) && searchResults == old(searchResults)
      ensures playlists == old(playlists)
      ensures token == old(token) && isAuthenticated == old(isAuthenticated) && storedToken == old(storedToken)
    {
      uris := [uri];
      showPlaylists := false;
      playlistSearchQuery := "";
      selectedPlaylist := None;
      playlistTracks := [];
      EmptyQueryShowsAll(playlists);
    }

    /** `backToPlaylists`: leaves the track list of the selected playlist. */
    method BackToPlaylists()
      requires Valid()
      modifies this
      ensures Valid()
      ensures selectedPlaylist == None && playlistTracks == []
      ensures uris == old(uris) && playlists == old(playlists)
      ensures showPlaylists == old(showPlaylists) && playlistSearchQuery == old(playlistSearchQuery)
      ensures showSearch == old(showSearch) && searchQuery == old(searchQuery) && searchResults == old(searchResults)
      ensures token == old(token) && isAuthenticated == old(isAuthenticated) && storedToken == old(storedToken)
    {
      selectedPlaylist := None;
      playlistTracks := [];
    }

    /**
      `fetchUserPlaylists`: without a token nothing is asked; otherwise the
      reply's `items`, when present, become the playlists.
    */
    method FetchUserPlaylists(items: Option<seq<Playlist>>)
      requires Valid()
      modifies this
      ensures Valid()
      ensures playlists == (if token != "" && items.Some? then items.value else old(playlists))
      ensures uris == old(uris) && selectedPlaylist == old(selectedPlaylist) && playlistTracks == old(playlistTracks)
      ensures showPlaylists == old(showPlaylists) && playlistSearchQuery == old(playlistSearchQuery)
      ensures showSearch == old(showSearch) && searchQuery == old(searchQuery) && searchResults == old(searchResults)
      ensures token == old(token) && isAuthenticated == old(isAuthenticated) && storedToken == old(storedToken)
    {
      if token != "" && items.Some? {
        playlists := items.value;
      }
    }

    /** The playlist search box: the typed text becomes the query, and the shown playlists are those matching it. */
    method TypePlaylistQuery(query: string)
      requires Valid()
      modifies this
      ensures Valid()
      ensures playlistSearchQuery == query
      ensures forall p :: p in Shown() <==> p in playlists && Matches(p, query)
      ensures uris == old(uris) && playlists == old(playlists)
      ensures selectedPlaylist == old(selectedPlaylist) && playlistTracks == old(playlistTracks)
      ensures showPlaylists == old(showPlaylists)
      ensures showSearch == old(showSearch) && searchQuery == old(searchQuery) && searchResults == old(searchResults)
      ensures token == old(token) && isAuthenticated == old(isAuthenticated) && storedToken == old(storedToken)
    {
      playlistSearchQuery := query;
      forall p | p in playlists && Matches(p, query) ensures p in Shown() {
        FilterKeepsExactlyMatches(playlists, query, p);
      }
    }

    /** The song search box: the typed text becomes the query and is searched at once. */
    method TypeSearchQuery(query: string, reply: Option<seq<Track>>)
      requires Valid()
      modifies this
      ensures Valid()
      ensures searchQuery == query
      ensures token == "" || query == "" ==> searchResults == []
      ensures token != "" && query != "" ==>
        searchResults == (if reply.Some? then reply.value else old(searchResults))
      ensures uris == old(uris) && playlists == old(playlists)
      ensures selectedPlaylist == old(selectedPlaylist) && playlistTracks == old(playlistTracks)
      ensures showPlaylists == old(showPlaylists) && playlistSearchQuery == old(playlistSearchQuery)
      ensures showSearch == old(showSearch)
      ensures token == old(token) && isAuthenticated == old(isAuthenticated) && storedToken == old(storedToken)
    {
      searchQuery := query;
      SearchTracks(query, reply);
    }
  }
}
