/** The embedding batch the anonymizer reads and produces (`SpeakerEmbeddings`),
    reduced to what the random anonymizer touches. */
module Embeddings {
  import opened Wrappers

  /** One speaker or utterance embedding. */
  type Vector = seq<real>

  /** Every vector has the same length: the vectors are one stacked tensor. */
  predicate Rectangular(vs: seq<Vector>)
  {
    forall j, k :: 0 <= j < |vs| && 0 <= k < |vs| ==> |vs[j]| == |vs[k]|
  }

  /** A batch: the construction arguments (`vec_type`, `device`, `emb_level`;
      None is the constructor's own default) and what `set_vectors` stores.
      Iterating a batch yields `(identifiers[j], vectors[j])` in order. */
  datatype SpeakerEmbeddings = SpeakerEmbeddings(
    vecType: string,
    device: string,
    embLevel: Option<string>,
    identifiers: seq<string>,
    vectors: seq<Vector>,
    genders: seq<string>,
    speakers: seq<string>)
  {
    /** One identifier per vector, and the vectors stack into one tensor. */
    predicate Valid()
    {
      |identifiers| == |vectors| && Rectangular(vectors)
    }
  }
}
