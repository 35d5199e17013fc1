// The application-wide `console.error` filter installed at start-up: known
// noisy messages from the telephony library share one counter that lets
// three through per ten-second window, then one notice, then nothing;
// every other message is passed on unchanged.
module ConsoleFilter {
  import opened Strings
  import opened RateLimit

  const WINDOW_MS: nat := 10000
  const NOISE_LIMIT: nat := 3
  const NOISE_NOTICE := "... suppressing additional Amazon Connect Streams errors to prevent spam ..."

  /** `shouldSuppress`: the fixed disjunction of substring tests on the joined message. */
  predicate IsStreamsNoise(message: string) {
    (Contains(message, "Cannot read properties of null") && Contains(message, "postMessage")) ||
    Contains(message, "background blur processor") ||
    (Contains(message, "amazon-connect-streams") && Contains(message, "ERROR")) ||
    (Contains(message, "initCCP") && Contains(message, "ERROR")) ||
    (Contains(message, "Logger.scheduleUpstreamOuterContextCCPLogsPush") && Contains(message, "ERROR"))
  }

  /** The replaced `console.error` and the module variables it updates. */
  class StreamsErrorFilter {
    /** `errorSuppressionCount` and `lastSuppressionTime` */
    var window: Window
    /** What the original `console.error` has been given, in order. */
    var output: seq<string>

    constructor ()
      ensures window == Window(0, 0) && output == []
    {
      window := Window(0, 0);
      output := [];
    }

    /**
     * One `console.error(...args)` call with the joined message. The window
     * is refreshed on every call; only noise is counted, and only noise can
     * be held back.
     */
    method ConsoleError(message: string, now: int)
      modifies this
      ensures !IsStreamsNoise(message) ==>
                window == Refresh(old(window), now, WINDOW_MS) && output == old(output) + [message]
      ensures IsStreamsNoise(message) ==>
                var (w, a) := Step(old(window), now, WINDOW_MS, NOISE_LIMIT);
                window == w && output == old(output) + Emit(a, message, NOISE_NOTICE)
    {
      window := Refresh(window, now, WINDOW_MS);
      if IsStreamsNoise(message) {
        var a := Decide(window.count, NOISE_LIMIT);
        window := Window(window.count + 1, window.start);
        if a == Forward {
          output := output + [message];
        } else if a == Notice {
          output := output + [NOISE_NOTICE];
        }
      } else {
        output := output + [message];
      }
    }
  }

  /**
   * Any noisy messages arriving within ten seconds of the one that opened
   * the window: at most three reach the console, followed by one notice
   * when there were more.
   */
  lemma NoiseBurstIsCapped(w: Window, times: seq<int>)
    requires times != [] && times[0] - w.start > WINDOW_MS
    requires forall i :: 0 <= i < |times| ==> times[0] <= times[i] <= times[0] + WINDOW_MS
    ensures var acts := Run(w, times, WINDOW_MS, NOISE_LIMIT);
            CountOf(acts, Forward) == (if |times| < 3 then |times| else 3) &&
            CountOf(acts, Notice) == (if |times| > 3 then 1 else 0)
  {
    BurstIsCapped(w, times, WINDOW_MS, NOISE_LIMIT);
  }
}
