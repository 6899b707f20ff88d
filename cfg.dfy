/** The client's configuration store (the config file and the keyring) seen
    only as the values other modules read and write. How they are persisted is
    not part of this model. */
module Cfg {
  import opened Base

  class Config {
    var username: Option<string>       // cfg.get_conf(USERNAME_KEY)
    var password: Option<string>       // cfg.get_password()
    var imageCache: Option<seq<Image>> // cfg.get_conf(IMAGE_LIST_KEY), already decoded from JSON

    constructor (username: Option<string>, password: Option<string>, imageCache: Option<seq<Image>>)
      ensures this.username == username && this.password == password && this.imageCache == imageCache
    {
      this.username := username;
      this.password := password;
      this.imageCache := imageCache;
    }
  }
}
