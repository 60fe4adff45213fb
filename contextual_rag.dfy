/** The deterministic contextual explanation shown for a passage selected in an article. */
module ContextualRag {
  import opened Wrappers
  import Types

  datatype DepthLabel = General | Academic

  datatype RelatedLink = RelatedLink(title: string, id: string)

  /** `ContextualResponse`. */
  datatype ContextualResponse = ContextualResponse(
    explanation: string,
    depthLabel: DepthLabel,
    relatedLinks: seq<RelatedLink>)

  /** `CULTURAL_EXPLANATIONS`. */
  const CulturalExplanations: seq<string> := [
    "El muralismo mexicano "
    + "emergió como respuesta a "
    + "la Revolución de 1910, "
    + "buscando crear un arte "
    + "público accesible para "
    + "todos los ciudadanos. "
    + "Artistas como Diego "
    + "Rivera y José Clemente "
    + "Orozco transformaron "
    + "paredes de edificios "
    + "públicos en narrativas "
    + "épicas de identidad "
    + "nacional.",
    "La arquitectura "
    + "prehispánica en México "
    + "refleja una profunda "
    + "comprensión astronómica. "
    + "Los templos estaban "
    + "alineados para capturar "
    + "los equinoccios, "
    + "convirtiendo cada "
    + "edificio en un "
    + "instrumento de medición "
    + "del tiempo sagrado.",
    "El teatro de calle en "
    + "México tiene raíces en "
    + "los 'pastorelas' "
    + "coloniales y las danzas "
    + "rituales indígenas. Esta "
    + "tradición híbrida sigue "
    + "viva en festivales "
    + "comunitarios donde lo "
    + "sagrado y lo festivo se "
    + "entrelazan.",
    "La cerámica de Talavera "
    + "de Puebla es Patrimonio "
    + "Cultural Inmaterial de "
    + "la UNESCO desde 2019. Su "
    + "técnica de esmalte en "
    + "dos cocciones fue traída "
    + "por artesanos españoles "
    + "en el siglo XVI y "
    + "fusionada con "
    + "tradiciones locales.",
    "El son jarocho es mucho "
    + "más que música: es un "
    + "sistema de convivencia "
    + "social llamado "
    + "'fandango'. Las tarimas "
    + "donde se zapatea no son "
    + "escenario sino espacio "
    + "comunitario donde todos "
    + "participan."
  ]

  /** `ACADEMIC_REFERENCE`. */
  const AcademicReference: string :=
    "\n\nReferencias: [Fuente "
    + "simulada] Florescano, E. "
    + "(2006). *Imágenes de la "
    + "patria*. México: Taurus."

  /** `RELATED_LINKS`. */
  const RelatedLinks: seq<RelatedLink> := [
    RelatedLink("El muralismo y la identidad nacional", "articulo-muralismo-rivera"),
    RelatedLink("Talavera: patrimonio vivo de Puebla", "articulo-talavera-puebla")
  ]

  /** `getContextualResponse(selectedText, profileType)`: total, it always answers. */
  function GetContextualResponse(selectedText: string, profileType: Option<string>): (r: ContextualResponse)
    ensures r.depthLabel == Academic <==> Types.IsAcademicTier(profileType)
    ensures Types.IsAcademicTier(profileType) ==>
              r.explanation == CulturalExplanations[|selectedText| % 5] + AcademicReference
    ensures !Types.IsAcademicTier(profileType) ==> r.explanation == CulturalExplanations[|selectedText| % 5]
    ensures r.relatedLinks == RelatedLinks && |r.relatedLinks| == 2
  {
    var isAcademic := Types.IsAcademicTier(profileType);
    var depthLabel := if isAcademic then Academic else General;
    var baseExplanation := CulturalExplanations[|selectedText| % |CulturalExplanations|];
    var explanation := if isAcademic then baseExplanation + AcademicReference else baseExplanation;
    ContextualResponse(explanation, depthLabel, RelatedLinks)
  }

  /** Of the profile types, only Academic and Cultural professional get the academic depth; Student does not. */
  lemma DepthOfProfileTypes(selectedText: string, t: Types.ProfileType)
    ensures GetContextualResponse(selectedText, Some(t.Name())).depthLabel == Academic
            <==> t == Types.Academic || t == Types.CulturalProfessional
    ensures GetContextualResponse(selectedText, None).depthLabel == General
  {
    Types.AcademicTierOfProfileTypes(t);
  }

  /** An empty selection gets the first explanation. */
  lemma EmptySelectionGetsFirstExplanation(profileType: Option<string>)
    ensures CulturalExplanations[0] <= GetContextualResponse("", profileType).explanation
  {
  }

  /** Selections of equal length get the same response. */
  lemma ResponseDependsOnLength(a: string, b: string, profileType: Option<string>)
    requires |a| == |b|
    ensures GetContextualResponse(a, profileType) == GetContextualResponse(b, profileType)
  {
  }
}
