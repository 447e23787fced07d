/** The constants of the application configuration that the pipeline's behaviour depends on. */
module Config {

  const RestBaseUrl: string := "https://rickandmortyapi.com/api"
  const GraphqlUrl: string := "https://rickandmortyapi.com/graphql"

  /** Request timeout in seconds; the transport enforces it, the model only names it. */
  const Timeout: nat := 30
  const MaxRetries: nat := 3
  const RetryDelay: nat := 1
  const RetryBackoff: nat := 2

  const RestPageSize: nat := 20

  const CharacterCsvHeaders: seq<string> :=
    ["id", "name", "status", "species", "origin_name", "location_id", "location_name",
     "location_type", "location_dimension"]
  const LocationCsvHeaders: seq<string> :=
    ["id", "name", "type", "dimension", "resident_count", "character_names"]

  const ChunkSize: nat := 100

  /**
   * The default output directory.  The application uses the `output` directory under the
   * repository root, an absolute path; all the model relies on is that it is not empty.
   */
  const OutputDir: string := "output"

  /** Progress reporting is switched on, so every progress update divides by the page total. */
  const EnableProgress: bool := true
}
