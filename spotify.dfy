/** The account data the client keeps (`src/spotify/mod.rs`) and the parts of
    the remote service's records that the program reads.

    The remote service itself is an oracle: `Client` gives, for the n-th
    request the program makes, what the service would answer to each kind of
    request at that moment. */
module Spotify {
  import opened Wrappers

  /** A performer credited on a track; only the name is read. */
  datatype Artist = Artist(name: string)

  /** The podcast an episode belongs to; only the name is read. */
  datatype Show = Show(name: string)

  /** Durations are whole milliseconds, the value `Duration::as_millis` gives. */
  datatype Track = Track(name: string, artists: seq<Artist>, durationMs: nat)

  datatype Episode = Episode(name: string, show: Show, durationMs: nat)

  /** rspotify's `PlayableItem`: what is playing is a track or an episode. */
  datatype PlayableItem = TrackItem(track: Track) | EpisodeItem(episode: Episode)

  /** rspotify's `CurrentPlaybackContext`, reduced to the three fields the
      playback panel reads. */
  datatype CurrentPlaybackContext =
    CurrentPlaybackContext(item: Option<PlayableItem>, progressMs: Option<nat>, isPlaying: bool)

  datatype PrivateUser = PrivateUser(id: string, displayName: Option<string>)

  /** `SpotifyState`: the logged-in profile and the current playback, each
      absent until fetched. */
  datatype SpotifyState = SpotifyState(me: Option<PrivateUser>, playback: Option<CurrentPlaybackContext>)

  /** What the remote service answers, at one moment, to each request the
      program can make: `me()`, `current_playback(..)`, `resume_playback(..)`
      and `pause_playback(..)`. Every one of them may fail. */
  datatype Reply = Reply(
    me: Result<PrivateUser>,
    currentPlayback: Result<Option<CurrentPlaybackContext>>,
    resume: Result<Unit>,
    pause: Result<Unit>)

  /** The remote client: the answer given to the n-th request. */
  type Client = nat -> Reply

  /** `Spotify`: the client together with the shared state it fills. The
      mutex around the state is not modelled; accesses are sequential. */
  class Spotify {
    const client: Client
    var state: SpotifyState

    /** `Default`: the state starts with nothing fetched. */
    constructor (client: Client)
      ensures this.client == client
      ensures state.me.None? && state.playback.None?
    {
      this.client := client;
      state := SpotifyState(None, None);
    }
  }
}
