/** How the server's reply audio URL meets the client: the client resolves
    the rooted path against its base URL, and the poll loop's fallback lands
    on the same URL. */
module ReplyAudioFlow {
  import opened Text
  import opened ConversationService
  import opened AudioPolling
  import opened TtsServer

  /** The reply URL is rooted, so every client request for it goes to the
      base URL followed by the server's static path, whatever the
      conversation path. */
  lemma ReplyUrlResolvesAgainstBase(cfg: Config, fileId: string)
    ensures ResolveUrl(cfg, ReplyAudioFor(fileId).url) == cfg.baseURL + "/static/tts_outputs/" + fileId + ".mp3"
  {
    var url := ReplyAudioFor(fileId).url;
    assert url[0] == '/';
    assert StartsWith(url, "/");
    assert !StartsWith(url, "http");
  }

  /** For a reply URL the fallback after a failed download is the URL the
      download itself tried, without its cache-busting parameter. */
  lemma ReplyFallbackIsResolvedUrl(cfg: Config, device: Device, fileId: string, timeoutMs: nat)
    ensures var p := PollSetup(cfg, device, ReplyAudioFor(fileId).url, timeoutMs);
            FallbackUrl(p) == ResolveUrl(cfg, p.audioUrl)
  {
    var url := ReplyAudioFor(fileId).url;
    assert url[0] == '/';
    assert StartsWith(url, "/");
    FallbackMatchesResolutionForRootedPaths(PollSetup(cfg, device, url, timeoutMs));
  }
}
