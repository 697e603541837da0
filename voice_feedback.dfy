/**
 * The spoken-feedback manager: form feedback and motivational lines are
 * rate-limited by their own cooldowns, spoken at once when the speech engine
 * is idle and queued while it talks; the end of an utterance starts the next
 * queued one. The speech engine is reduced to whether it exists
 * (`speechSupported`) and the log of utterances handed to it (`spoken`); the
 * clock is the `now` parameter (milliseconds).
 */
module VoiceFeedback {

  /** Minimum spacing (ms) of unforced form feedback. */
  const FeedbackCooldown: int := 2000

  /** Minimum spacing (ms) of motivational lines. */
  const MotivationalCooldown: int := 15000

  /** A message is let through when forced or when the cooldown has fully elapsed since the last one. */
  function PassesCooldown(last: int, now: int, cooldown: int, force: bool): (r: bool)
    ensures force ==> r
    ensures !force ==> (r <==> last + cooldown <= now)
  {
    force || now - last >= cooldown
  }

  /** Once a message would pass the cooldown, it passes at every later time too. */
  lemma PassesCooldownLater(last: int, now: int, later: int, cooldown: int, force: bool)
    requires PassesCooldown(last, now, cooldown, force) && now <= later
    ensures PassesCooldown(last, later, cooldown, force)
  {
  }

  class VoiceFeedbackManager {
    var speechQueue: seq<string>
    var isSpeaking: bool
    var lastFeedbackTime: int
    var lastMotivationalTime: int
    const speechSupported: bool

    /** Utterances handed to the speech engine, in order. */
    var spoken: seq<string>
    /** Messages that passed their cooldown, in order. */
    ghost var accepted: seq<string>
    /** Accepted messages already spoken, skipped or discarded, in order. */
    ghost var settled: seq<string>

    /**
     * The queue is the not-yet-settled tail of the accepted messages (so
     * nothing is reordered), it waits only while something is being said,
     * and it holds no empty message (an empty head would stall it).
     */
    ghost predicate Valid()
      reads this
    {
      && accepted == settled + speechQueue
      && (!isSpeaking ==> speechQueue == [])
      && (isSpeaking ==> speechSupported)
      && (forall i :: 0 <= i < |speechQueue| ==> speechQueue[i] != [])
    }

    constructor(speechSupported: bool)
      ensures this.speechSupported == speechSupported
      ensures speechQueue == [] && !isSpeaking && lastFeedbackTime == 0 && lastMotivationalTime == 0
      ensures spoken == [] && accepted == [] && settled == []
      ensures Valid()
    {
      this.speechSupported := speechSupported;
      speechQueue := [];
      isSpeaking := false;
      lastFeedbackTime := 0;
      lastMotivationalTime := 0;
      spoken := [];
      accepted := [];
      settled := [];
    }

    /** Hands `text` to the speech engine, when there is one, and marks it as talking. */
    method Speak(text: string)
      modifies this
      ensures speechSupported ==> isSpeaking && spoken == old(spoken) + [text]
      ensures !speechSupported ==> isSpeaking == old(isSpeaking) && spoken == old(spoken)
      ensures speechQueue == old(speechQueue) && accepted == old(accepted) && settled == old(settled)
      ensures lastFeedbackTime == old(lastFeedbackTime) && lastMotivationalTime == old(lastMotivationalTime)
    {
      if !speechSupported {
        return;
      }
      spoken := spoken + [text];
      isSpeaking := true;
    }

    /** When idle, takes the next queued message and speaks it (an empty one is dropped unspoken). */
    method ProcessQueue()
      modifies this
      ensures old(speechQueue) == [] || old(isSpeaking) ==>
                speechQueue == old(speechQueue) && isSpeaking == old(isSpeaking) && spoken == old(spoken)
                && settled == old(settled)
      ensures old(speechQueue) != [] && !old(isSpeaking) ==>
                && speechQueue == old(speechQueue)[1..]
                && settled == old(settled) + [old(speechQueue)[0]]
                && (old(speechQueue)[0] != [] && speechSupported ==>
                      isSpeaking && spoken == old(spoken) + [old(speechQueue)[0]])
                && (old(speechQueue)[0] == [] || !speechSupported ==> !isSpeaking && spoken == old(spoken))
      ensures accepted == old(accepted)
      ensures lastFeedbackTime == old(lastFeedbackTime) && lastMotivationalTime == old(lastMotivationalTime)
    {
      if |speechQueue| > 0 && !isSpeaking {
        var nextMessage := speechQueue[0];
        speechQueue := speechQueue[1..];
        settled := settled + [nextMessage];
        if nextMessage != [] {
          Speak(nextMessage);
        }
      }
    }

    /** The engine finished (or failed) an utterance: it is idle again and the next queued message starts. */
    method OnUtteranceEnd()
      modifies this
      ensures old(speechQueue) == [] ==> !isSpeaking && speechQueue == [] && spoken == old(spoken)
      ensures old(speechQueue) != [] ==>
                speechQueue == old(speechQueue)[1..] && settled == old(settled) + [old(speechQueue)[0]]
      ensures old(speechQueue) != [] && old(speechQueue)[0] != [] && speechSupported ==>
                isSpeaking && spoken == old(spoken) + [old(speechQueue)[0]]
      // a dropped empty head, or no speech support, leaves the manager idle with nothing spoken
      ensures old(speechQueue) != [] && (old(speechQueue)[0] == [] || !speechSupported) ==>
                !isSpeaking && spoken == old(spoken)
      ensures old(speechQueue) == [] ==> settled == old(settled)
      ensures accepted == old(accepted)
      ensures lastFeedbackTime == old(lastFeedbackTime) && lastMotivationalTime == old(lastMotivationalTime)
      ensures old(Valid()) ==> Valid()
    {
      isSpeaking := false;
      ProcessQueue();
    }

    /**
     * Form feedback at time `now`: dropped inside the cooldown unless forced;
     * otherwise stamped, then spoken at once when idle or queued behind the
     * current utterance.
     */
    method SpeakFeedback(message: string, force: bool, now: int)
      modifies this
      ensures !PassesCooldown(old(lastFeedbackTime), now, FeedbackCooldown, force) ==>
                && speechQueue == old(speechQueue) && isSpeaking == old(isSpeaking)
                && lastFeedbackTime == old(lastFeedbackTime) && spoken == old(spoken)
                && accepted == old(accepted) && settled == old(settled)
      ensures PassesCooldown(old(lastFeedbackTime), now, FeedbackCooldown, force) ==>
                && lastFeedbackTime == now
                && accepted == old(accepted) + [message]
                && (old(isSpeaking) ==> speechQueue == old(speechQueue) + [message] && spoken == old(spoken))
                && (!old(isSpeaking) ==> speechQueue == old(speechQueue) && settled == old(settled) + [message])
                && (!old(isSpeaking) && speechSupported ==> isSpeaking && spoken == old(spoken) + [message])
                && (!old(isSpeaking) && !speechSupported ==> !isSpeaking && spoken == old(spoken))
                && (old(isSpeaking) ==> isSpeaking && settled == old(settled))
      ensures lastMotivationalTime == old(lastMotivationalTime)
      ensures old(Valid()) && message != [] ==> Valid()
    {
      if !force && now - lastFeedbackTime < FeedbackCooldown {
        return;
      }
      lastFeedbackTime := now;
      accepted := accepted + [message];
      if isSpeaking {
        speechQueue := speechQueue + [message];
      } else {
        settled := settled + [message];
        Speak(message);
      }
    }

    /** A motivational line at time `now`: the same as form feedback, with its own longer cooldown and no forcing. */
    method SpeakMotivational(message: string, now: int)
      modifies this
      ensures !PassesCooldown(old(lastMotivationalTime), now, MotivationalCooldown, false) ==>
                && speechQueue == old(speechQueue) && isSpeaking == old(isSpeaking)
                && lastMotivationalTime == old(lastMotivationalTime) && spoken == old(spoken)
                && accepted == old(accepted) && settled == old(settled)
      ensures PassesCooldown(old(lastMotivationalTime), now, MotivationalCooldown, false) ==>
                && lastMotivationalTime == now
                && accepted == old(accepted) + [message]
                && (old(isSpeaking) ==> speechQueue == old(speechQueue) + [message] && spoken == old(spoken))
                && (!old(isSpeaking) ==> speechQueue == old(speechQueue) && settled == old(settled) + [message])
                && (!old(isSpeaking) && speechSupported ==> isSpeaking && spoken == old(spoken) + [message])
                && (!old(isSpeaking) && !speechSupported ==> !isSpeaking && spoken == old(spoken))
                && (old(isSpeaking) ==> isSpeaking && settled == old(settled))
      ensures lastFeedbackTime == old(lastFeedbackTime)
      ensures old(Valid()) && message != [] ==> Valid()
    {
      if now - lastMotivationalTime < MotivationalCooldown {
        return;
      }
      lastMotivationalTime := now;
      accepted := accepted + [message];
      if isSpeaking {
        speechQueue := speechQueue + [message];
      } else {
        settled := settled + [message];
        Speak(message);
      }
    }

    /** Silences the engine and discards everything queued. */
    method Stop()
      modifies this
      ensures speechQueue == [] && !isSpeaking && spoken == old(spoken)
      ensures settled == old(settled) + old(speechQueue) && accepted == old(accepted)
      ensures lastFeedbackTime == old(lastFeedbackTime) && lastMotivationalTime == old(lastMotivationalTime)
      ensures old(Valid()) ==> Valid()
    {
      settled := settled + speechQueue;
      speechQueue := [];
      isSpeaking := false;
    }

    /** Discards everything queued; the current utterance goes on. */
    method ClearQueue()
      modifies this
      ensures speechQueue == [] && isSpeaking == old(isSpeaking) && spoken == old(spoken)
      ensures settled == old(settled) + old(speechQueue) && accepted == old(accepted)
      ensures lastFeedbackTime == old(lastFeedbackTime) && lastMotivationalTime == old(lastMotivationalTime)
      ensures old(Valid()) ==> Valid()
    {
      settled := settled + speechQueue;
      speechQueue := [];
    }
  }

  /**
   * Two messages while the first is still being said: the second waits, and
   * the end of the first utterance speaks it; a third inside the cooldown is
   * dropped.
   */
  method QueueExample() returns (spoken: seq<string>)
    ensures spoken == ["Go deeper", "Keep your back straight"]
  {
    var voice := new VoiceFeedbackManager(true);
    voice.SpeakFeedback("Go deeper", false, 10000);
    voice.SpeakFeedback("Keep your back straight", true, 10500);
    voice.SpeakFeedback("Ignored", false, 11000);
    voice.OnUtteranceEnd();
    spoken := voice.spoken;
  }
}
