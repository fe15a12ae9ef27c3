/** The built-in chants offered on the defaults tab. */
module DefaultChants {
  import opened Wrappers

  /** `DefaultChant`; the optional fields are `None` where the entry leaves them out. */
  datatype DefaultChant = DefaultChant(
    id: string,
    text: string,
    description: string,
    voiceName: Option<string>,
    lang: Option<string>,
    audioUrl: Option<string>)

  function AudioChant(id: string, text: string, description: string, url: string): DefaultChant {
    DefaultChant(id, text, description, None, None, Some(url))
  }

  function VoiceChant(id: string, text: string, description: string, voice: string): DefaultChant {
    DefaultChant(id, text, description, Some(voice), Some("hi-IN"), None)
  }

  /** `defaultChants`, in table order. */
  const Table: seq<DefaultChant> := [
    AudioChant("radha-radha-premanand", "राधा राधा", "Authentic chant musically.", "/audio/Gausalla Street 2.m4a"),
    AudioChant("radha-radha", "राधा राधा", "Radha Radha Slowly.", "/audio/radhaSlowly.m4a"),
    AudioChant("ram-ram", "राम राम", "Radha Radha Slowly.", "/audio/ramram.m4a"),
    AudioChant("om-namah-shivaye", "ॐ नमः शिवाय", "Deep male voice.", "/audio/omNamahShiv.m4a"),
    VoiceChant("hare-krishna", "हरे कृष्णा", "Gentle, calm male voice.", "hi-IN-Wavenet-D"),
    VoiceChant("jai-shri-ram", "जय श्री राम", "Powerful male voice.", "hi-IN-Wavenet-B"),
    VoiceChant("waheguru", "वाहेगुरु", "Clear, resonant male voice.", "hi-IN-Wavenet-D")
  ]

  /** An entry plays either a recording or a synthesized voice, and a voice is always Hindi. */
  predicate WellFormedEntry(c: DefaultChant) {
    c.text != "" && c.description != "" &&
    c.audioUrl.Some? != c.voiceName.Some? &&
    (c.voiceName.Some? ==> c.voiceName.value != "" && c.lang == Some("hi-IN")) &&
    (c.audioUrl.Some? ==> c.audioUrl.value != "")
  }

  predicate DistinctIds(t: seq<DefaultChant>) {
    forall i, j :: 0 <= i < j < |t| ==> t[i].id != t[j].id
  }

  /** The table's invariants: seven entries, distinct ids, every entry well formed. */
  lemma TableWellFormed()
    ensures |Table| == 7 && DistinctIds(Table)
    ensures forall c :: c in Table ==> WellFormedEntry(c)
  {
  }
}
