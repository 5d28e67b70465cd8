/** The Benchling schema field names the pipeline reads and writes, and the computed fields of each DNA schema. */
module BenchlingFields {

  /** Keys of the DNA sequence schema. */
  datatype DnaSequenceFieldKey = SourceSequencingRun | SourceClone | Type | Species | TranslationAa | TranslationAaResidues | Comment {
    function Key(): string {
      match this
      case SourceSequencingRun => "Source: Sequencing Run"
      case SourceClone => "Source: Clone"
      case Type => "Type"
      case Species => "Species"
      case TranslationAa => "Translation AA"
      case TranslationAaResidues => "Translation AA - Residues"
      case Comment => "Comment"
    }

    /** Fields Benchling computes itself, which an update must not send. */
    static function ComputedFields(): seq<DnaSequenceFieldKey> {
      [DnaSequenceFieldKey.Species, DnaSequenceFieldKey.TranslationAaResidues]
    }
  }

  /** Keys of the DNA feature schema. */
  datatype DnaFeatureFieldKey = Functions | SequenceSource | SourceSpecies | CodonOptimizationSpecies | CodonOptimizationProvider | Comment | TranslationAa | TranslationAaResidues {
    function Key(): string {
      match this
      case Functions => "Function(s)"
      case SequenceSource => "Sequence Source"
      case SourceSpecies => "Source Species"
      case CodonOptimizationSpecies => "Codon Optimization - Species"
      case CodonOptimizationProvider => "Codon Optimization - Provider"
      case Comment => "Comment"
      case TranslationAa => "Translation AA"
      case TranslationAaResidues => "Translation AA - Residues"
    }

    static function ComputedFields(): seq<DnaFeatureFieldKey> {
      [DnaFeatureFieldKey.TranslationAaResidues]
    }
  }

  /** Keys of the AA sequence schema. */
  datatype AaSequenceFieldKey = SequenceSource | SourceClone | Type | ImgtVersion {
    function Key(): string {
      match this
      case SequenceSource => "Sequence Source"
      case SourceClone => "Source: Clone"
      case Type => "Type"
      case ImgtVersion => "IMGT Version"
    }
  }

  /** The custom field linking an AA sequence, or a germline alignment sequence, to its DNA sequence. */
  const DnaSequenceIdCustomField: string := "DNA Sequence ID"

  /**
   * The two DNA schemas an event can carry. The Python enum has exactly these two
   * members, so the `else []` branch of `get_computed_fields` cannot be reached and
   * has no counterpart here.
   */
  datatype DnaSchemaType = Sequence | Feature {

    /** The computed field names of this schema, in declaration order. */
    function ComputedFields(): (r: seq<string>)
      ensures this == Sequence ==> r == ["Species", "Translation AA - Residues"]
      ensures this == Feature ==> r == ["Translation AA - Residues"]
    {
      match this
      case Sequence => seq(|DnaSequenceFieldKey.ComputedFields()|, i requires 0 <= i < |DnaSequenceFieldKey.ComputedFields()| => DnaSequenceFieldKey.ComputedFields()[i].Key())
      case Feature => seq(|DnaFeatureFieldKey.ComputedFields()|, i requires 0 <= i < |DnaFeatureFieldKey.ComputedFields()| => DnaFeatureFieldKey.ComputedFields()[i].Key())
    }

    /** The key of the "Translation AA" field in this schema. */
    function TranslationAaKey(): string {
      match this
      case Sequence => DnaSequenceFieldKey.TranslationAa.Key()
      case Feature => DnaFeatureFieldKey.TranslationAa.Key()
    }

    /** The key of the "Comment" field in this schema. */
    function CommentKey(): string {
      match this
      case Sequence => DnaSequenceFieldKey.Comment.Key()
      case Feature => DnaFeatureFieldKey.Comment.Key()
    }
  }

  /**
   * The fields written by the translation-filling and stop-codon steps are never
   * computed fields, so removing the computed fields cannot drop them.
   */
  lemma WrittenFieldsAreNotComputed(t: DnaSchemaType)
    ensures t.TranslationAaKey() !in t.ComputedFields()
    ensures t.CommentKey() !in t.ComputedFields()
    ensures "Translation AA" !in t.ComputedFields() && "Comment" !in t.ComputedFields()
  {
  }

  /** Within each schema, distinct keys have distinct names. */
  lemma KeysAreDistinct()
    ensures forall a: DnaSequenceFieldKey, b: DnaSequenceFieldKey :: a.Key() == b.Key() ==> a == b
    ensures forall a: DnaFeatureFieldKey, b: DnaFeatureFieldKey :: a.Key() == b.Key() ==> a == b
    ensures forall a: AaSequenceFieldKey, b: AaSequenceFieldKey :: a.Key() == b.Key() ==> a == b
  {
  }
}
