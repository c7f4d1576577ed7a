/**
 * The feed item record shared by every component. The bundled item list
 * itself (src/data/vlogData) is not part of this model: every operation
 * takes the list as a parameter.
 */
module Vlogs {

  /** One vlog: identifier, creator name, job role, YouTube video id, tags, description. */
  datatype Vlog = Vlog(
    id: string,
    username: string,
    role: string,
    videoId: string,
    tags: seq<string>,
    description: string)
}
