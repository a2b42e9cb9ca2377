/**
 * The fixed table of closely related fields of study. A key lists the fields
 * considered close to it; the listing is one-directional.
 */
module Domain {
  /** A relatedness table: a field of study to the fields listed as close to it. */
  type Table = map<string, seq<string>>

  /** `domain_mapping` */
  const DomainMapping: Table := map[
    "Civil Engineering" := ["Structural Engineering", "Environmental Engineering", "Geotechnical Engineering", "Water Resources Engineering"],
    "Mechanical Engineering" := ["Thermal Engineering", "HVAC Systems", "Manufacturing Engineering", "Automobile Engineering", "Aerospace Engineering"],
    "Electrical Engineering" := ["Power Systems", "Control Systems", "Electronics Engineering", "Communication Systems", "Signal Processing", "Power Electronics"],
    "Electronics & Communication Engineering" := ["Signal Processing", "Wireless Communication", "Antenna Design", "Embedded Systems"],
    "Electronics Engineering" := ["Wireless Communication", "Embedded Systems", "Control Systems", "Telecommunication Engineering"],
    "Computer Science" := ["Data Science", "Artificial Intelligence", "Machine Learning", "Cybersecurity", "Software Engineering", "Information Technology"],
    "Instrumentation Engineering" := ["Control Systems Engineering", "Automation Engineering", "Process Control", "Measurement Engineering"],
    "Chemical Engineering" := ["Process Engineering", "Biochemical Engineering", "Environmental Engineering", "Chemical Process Design"],
    "Agriculture" := ["Agronomy", "Sustainable Agriculture", "Soil Science", "Horticulture"],
    "Environmental Science" := ["Environmental Geology", "Environmental Botany", "Environmental Engineering", "Environmental Ecology"],
    "Botany" := ["Environmental Botany", "Plant Ecology", "Plant Genetics", "Plant Pathology"],
    "Library Science" := ["Information Management", "Knowledge Management", "Digital Library Systems", "Archival Science"],
    "Chemistry" := ["Biochemistry", "Chemical Process Design", "Material Science"],
    "Geology" := ["Environmental Geology", "Earth Science", "Geotechnical Engineering"],
    "Automobile Engineering" := ["Electric Vehicle Technologies", "Vehicle Design", "Thermal Systems"],
    "Structural Engineering" := ["Civil Engineering", "Geotechnical Engineering", "Construction Engineering"],
    "Cybersecurity" := ["Computer Science", "Information Security", "Cryptography"],
    "Artificial Intelligence" := ["Computer Science", "Data Science", "Machine Learning"],
    "Data Science" := ["Artificial Intelligence", "Machine Learning", "Computer Science"]
  ]

  /** `a in table and b in table[a]`; an unknown key relates to nothing. */
  predicate Related(table: Table, a: string, b: string) {
    a in table && b in table[a]
  }

  /** No key of the table lists itself. */
  predicate Irreflexive(table: Table) {
    forall k | k in table :: k !in table[k]
  }

  /** No field in `domain_mapping` lists itself, so no field is related to itself. */
  lemma NotSelfRelated(v: string)
    ensures Irreflexive(DomainMapping)
    ensures !Related(DomainMapping, v, v)
  {
    forall k | k in DomainMapping
      ensures k !in DomainMapping[k]
    {
    }
  }

  /** The relation is not symmetric: Mechanical lists Automobile, not the other way round. */
  lemma RelatedIsAsymmetric()
    ensures Related(DomainMapping, "Mechanical Engineering", "Automobile Engineering")
    ensures !Related(DomainMapping, "Automobile Engineering", "Mechanical Engineering")
  {
  }
}
