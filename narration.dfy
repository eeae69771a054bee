/**
 * The narrator's voice pick (`random.choice(VOICE_IDS)`). The random draw
 * is a parameter: an index below the number of configured voices, which is
 * never zero because the list comes from a `split`.
 */
module Narration {

  function ChooseVoice(voiceIds: seq<string>, draw: nat): (v: string)
    requires draw < |voiceIds|
    ensures v in voiceIds
  {
    voiceIds[draw]
  }
}
