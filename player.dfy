/**
 * The stored player record, as the commands and formatters read it. The
 * `skills` column is a JSON object (skill name to number, plus an optional
 * `lores` object); `metadata` is free-form JSON.
 */
module Players {
  import opened Wrappers
  import opened Json

  datatype Player = Player(
    id: string,
    pathbuilderId: Option<string>,  // the export the player was imported from, if any
    name: string,
    alias: Option<string>,
    className: string,
    level: int,
    perception: int,
    fortitude: int,
    reflex: int,
    will: int,
    skills: seq<(string, Json)>,
    status: Option<string>,
    autoTags: seq<string>,
    metadata: Json)
}
