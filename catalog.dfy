/** The sound catalog handed to the player: an ordered list of entries of
    the `Sound` shape of src/lib/sounds.ts. */
module Catalog {
  import opened Optional

  /** One catalog entry: a unique id, a display name and the audio source. */
  datatype Sound = Sound(id: string, name: string, src: string)

  /** Index of the first entry whose id is `id`, if there is one. */
  function FirstIndex(sounds: seq<Sound>, id: string): (r: Option<nat>)
    ensures r.Some? ==> r.value < |sounds| && sounds[r.value].id == id
    ensures r.Some? ==> forall j :: 0 <= j < r.value ==> sounds[j].id != id
    ensures r.None? ==> forall j :: 0 <= j < |sounds| ==> sounds[j].id != id
  {
    if |sounds| == 0 then None
    else if sounds[0].id == id then Some(0)
    else
      match FirstIndex(sounds[1..], id)
      case None => None
      case Some(k) => Some(k + 1)
  }

  /** `sounds.find(s => s.id === id)`: the first entry carrying `id`. */
  function Find(sounds: seq<Sound>, id: string): (r: Option<Sound>)
    ensures r.Some? ==> r.value in sounds && r.value.id == id
    ensures r.None? <==> forall s :: s in sounds ==> s.id != id
    ensures forall i :: 0 <= i < |sounds| && sounds[i].id == id && (forall j :: 0 <= j < i ==> sounds[j].id != id) ==>
      r == Some(sounds[i])
  {
    match FirstIndex(sounds, id)
    case None => None
    case Some(i) => Some(sounds[i])
  }
}
