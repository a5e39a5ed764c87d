/**
 * Field names of the search index (`VitroLuceneTermNames`). The class that
 * defines them, Entity2LuceneDoc.java, is not part of this model: the values
 * below stand in for its constants, and the proofs use only that they are
 * distinct and contain no space.
 */
module TermNames {

  const Uri: string := "URI"
  const NameRaw: string := "nameRaw"
  const NameLowercase: string := "nameLowercase"
  const RdfType: string := "type"
  const AcNameStemmed: string := "acNameStemmed"
  const AcNameUnstemmed: string := "acNameUnstemmed"
}
